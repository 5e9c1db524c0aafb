/**
 * The information-message table of `parseInfoMessage` in
 * CarDash/CarInfo+SerialParserDelegate.swift.
 *
 * The source is a chain of 91 `if`/`else if` tests, each comparing the first
 * three payload bytes of frame 0x08 with a pattern; the door branch tests two
 * patterns. Here every pattern is a `Row`, in source order (the two door
 * patterns are consecutive rows with the same action), and "the first branch
 * that matches" is `FirstMatch` over the table. The table is written as six
 * consecutive chunks so that facts about it can be checked chunk by chunk.
 */
module InfoMessages {
  import opened Bytes
  import opened Wrappers

  /** What a matching branch does: show a message, or decode the door bytes. */
  datatype Action = Show(message: nat) | DecodeDoors

  /** One pattern of the chain: `isInfoMessage(data, b1:, b2:, b3:)`. */
  datatype Row = Row(b1: byte, b2: byte, b3: byte, action: Action)

  /** `isInfoMessage`: the low nibble of byte 0, all of byte 1 and the high
      nibble of byte 2 agree with the pattern. Swift's `&&` is lazy: byte 1
      is read only when the nibble agrees, byte 2 only when byte 1 agrees too.
      Where the payload ends before a byte the test reads, the source traps;
      here the test fails, and `RowReadable` says when that cannot happen. */
  predicate IsInfoMessage(data: seq<byte>, b1: byte, b2: byte, b3: byte) {
    |data| >= 1 && data[0] & 0x0F == b1
    && |data| >= 2 && data[1] & 0xFF == b2
    && |data| >= 3 && data[2] & 0xF0 == b3 & 0xF0
  }

  predicate Matches(r: Row, data: seq<byte>) {
    IsInfoMessage(data, r.b1, r.b2, r.b3)
  }

  /** The test of row `r` reads only bytes the payload has. */
  predicate RowReadable(r: Row, data: seq<byte>) {
    |data| >= 1 && (data[0] & 0x0F == r.b1 ==> |data| >= 2 && (data[1] == r.b2 ==> |data| >= 3))
  }

  /** Every test the chain evaluates, up to the first that matches, reads
      only bytes the payload has. */
  predicate ChainReadable(rows: seq<Row>, data: seq<byte>) {
    rows == [] || (RowReadable(rows[0], data) && (Matches(rows[0], data) || ChainReadable(rows[1..], data)))
  }

  /** The texts the dashboard shows, numbered in table order. */
  function Message(k: nat): string {
    match k
    case 0 => "Essuie-vitre automatique activé"
    case 1 => "Essuie-vitre automatique désactivé"
    case 2 => "Allumage automatique des projecteurs activé"
    case 3 => "Allumage automatique des projecteurs désactivé"
    case 4 => "Auto-verrouillage des portes activé"
    case 5 => "Auto-verrouillage des portes déactivé"
    case 6 => "Sécurité enfant activée"
    case 7 => "Sécurité enfant désactivée"
    case 8 => "Stationnement NON (cf photo)"
    case 9 => "Système STOP START défaillant"
    case 10 => "Manoeuvre toit impossible: tº ext. trop faible"
    case 11 => "Manoeuvre toit impossible: vitesse trop élevée"
    case 12 => "Manoeuvre toit impossible: coffre ouvert"
    case 13 => "Manoeuvre toit impossible: rideau coffre non déployé"
    case 14 => "Manoeuvre toit terminée"
    case 15 => "Terminer immédiatement la manoeuvre de toit"
    case 16 => "Manoeuvre impossible: toit verrouillé"
    case 17 => "Mécanisme toit escamotable défaillant"
    case 18 => "Manoeuvre impossible: lunette ouverte"
    case 19 => "Diagnostic OK"
    case 20 => "STOP: défaut température moteur, arrêtez le véhicule"
    case 21 => "Ajustez niveau liquide de refroidissement"
    case 22 => "Ajustez le niveau d'huile moteur"
    case 23 => "STOP: défaut pression huile moteur, arrêtez le véhicule"
    case 24 => "STOP: système de freinage défaillant"
    case 25 => "Demande non permise (cf photo)"
    case 26 => "Plusieurs roues crevées"
    case 27 => "Risque de colmatage filtre à particules: consultez la notice"
    case 28 => "Suspension défaillante, vitesse max 90km/h"
    case 29 => "Suspension défaillante"
    case 30 => "Direction assistée défaillante"
    case 31 => "WTF?"
    case 32 => "Frein de parking serré"
    case 33 => "Frein de parking desserré"
    case 34 => "Commande frein de parking défaillante, frein de parking auto activé"
    case 35 => "Plaquettes de frein usées"
    case 36 => "Frein de parking défaillant"
    case 37 => "Aileron mobile défaillant, vitesse limitée, consultez la notice"
    case 38 => "Système de freinage ABS défaillant"
    case 39 => "Système ESP/ASR défaillant"
    case 40 => "Suspension défaillante"
    case 41 => "STOP: direction assistée défaillante"
    case 42 => "Défaut boite de vitesse, faites réparer le véhicule"
    case 43 => "Système de controle de vitesse défaillant"
    case 44 => "Capteur de luminosité ambiante défaillant"
    case 45 => "Ampoule feu de position défaillante"
    case 46 => "Réglage automatique des projecteurs défaillant"
    case 47 => "Projecteurs directionnels défaillants"
    case 48 => "Airbag(s) ou ceinture(s) à prétensionneur(s) défaillant(s)"
    case 49 => "Défaut boite de vitesse, faites réparer le véhicule"
    case 50 => "Pied sur frein et levier en position \"N\" nécessaires"
    case 51 => "Présence d'eau dans le filtre à gasoil, faites réparer le véhicule"
    case 52 => "Défaut moteur, faites réparer le véhicule"
    case 53 => "Défaut moteur, faites réparer le véhicule"
    case 54 => "Niveau additif FAP trop faible, faites réparer le véhicule"
    case 55 => "Antivol électronique défaillant"
    case 56 => "Système aide au stationnement défaillant"
    case 57 => "Système de mesure de place défaillant"
    case 58 => "Charge batterie ou alimentation électrique défaillante"
    case 59 => "Pression pneumatiques insuffisante"
    case 60 => "Système d'alerte de franchissement de ligne défaillant"
    case 61 => "Ampoule feu de croisement défaillante"
    case 62 => "Ampoule feu de route défaillante"
    case 63 => "Ampoule feu stop défaillante"
    case 64 => "Ampoule anti-brouillard défaillante"
    case 65 => "Clignotant défaillant"
    case 66 => "Ampoule feu de recul défaillante"
    case 67 => "Ampoule feu de position défaillante"
    case 68 => "Régulation de vitesse impossible: vitesse trop faible"
    case 69 => "Activation du régulateur impossible: saisir la vitesse"
    case 70 => "Ceintures AV non bouclées"
    case 71 => "Ceintures passagers AR bouclées"
    case 72 => "Placer boite automatique en position P"
    case 73 => "Risque de verglas"
    case 74 => "Oubli frein à main !"
    case 75 => "Niveau liquide lave-glace insuffisant"
    case 76 => "Niveau carburant faible"
    case 77 => "Circuit de carburant neutralisé"
    case 78 => "Pile télécommande plip usagée"
    case 79 => "Pression pneumatique(s) non surveillée"
    case 80 => "Vitesse élevée, vérifier si pression pneumatiques adaptée"
    case 81 => "Pression pneumatique(s) insuffisante"
    case 82 => "La phase de démarrage a échoué (consulter la notice)"
    case 83 => "Démarrage prolongé en cours"
    case 84 => "Télécommande non détectée"
    case 85 => "Diagnostic en cours"
    case 86 => "Diagnostic terminé"
    case 87 => "Ceinture passager AR gauche débouclée"
    case 88 => "Ceinture passager AR central débouclée"
    case 89 => "Ceinture passager AR droit débouclée"
    case _ => ""
  }

  /** Patterns (0x00, 0x7E) and (0x00, 0x7F) show the same engine fault
      text. */
  lemma EngineFaultTextShared()
    ensures Message(52) == Message(53)
  {
  }

  /** The four texts shown by two patterns each: failed suspension (0x12 and
      0x6C), gearbox fault (0x6E and 0x7A), failed side light (0x74 and
      0xA0) and engine fault (0x7E and 0x7F), all with nibble 0. */
  lemma SharedTexts()
    ensures Message(29) == Message(40)
    ensures Message(42) == Message(49)
    ensures Message(45) == Message(67)
    ensures Message(52) == Message(53)
  {
    SuspensionTextShared();
    GearboxTextShared();
    SideLightTextShared();
    EngineFaultTextShared();
  }

  lemma SuspensionTextShared()
    ensures Message(29) == Message(40)
  {
  }

  lemma GearboxTextShared()
    ensures Message(42) == Message(49)
  {
  }

  lemma SideLightTextShared()
    ensures Message(45) == Message(67)
  {
  }

  /** The patterns that show those texts. */
  lemma SharedTextRows()
    ensures |Table()| == 92
    ensures Table()[29] == Row(0x00, 0x12, 0xC8, Show(29)) && Table()[40] == Row(0x00, 0x6C, 0xC8, Show(40))
    ensures Table()[42] == Row(0x00, 0x6E, 0xC8, Show(42)) && Table()[49] == Row(0x00, 0x7A, 0xC8, Show(49))
    ensures Table()[45] == Row(0x00, 0x74, 0xC8, Show(45)) && Table()[67] == Row(0x00, 0xA0, 0xC8, Show(67))
    ensures Table()[52] == Row(0x00, 0x7E, 0xC8, Show(52)) && Table()[53] == Row(0x00, 0x7F, 0xC8, Show(53))
  {
  }

  function RoofAndComfort(): seq<Row> {
    [
      Row(0x01, 0x2F, 0xC4, Show(0)),
      Row(0x01, 0x30, 0xC4, Show(1)),
      Row(0x01, 0x31, 0xC4, Show(2)),
      Row(0x01, 0x32, 0xC4, Show(3)),
      Row(0x01, 0x33, 0xC4, Show(4)),
      Row(0x01, 0x34, 0xC4, Show(5)),
      Row(0x01, 0x37, 0xC4, Show(6)),
      Row(0x01, 0x38, 0xC4, Show(7)),
      Row(0x01, 0x3D, 0xC4, Show(8)),
      Row(0x01, 0x98, 0xC4, Show(9)),
      Row(0x01, 0xF6, 0xC4, Show(10)),
      Row(0x01, 0xF7, 0xC4, Show(11)),
      Row(0x01, 0xF8, 0xC4, Show(12)),
      Row(0x01, 0xFA, 0xC4, Show(13)),
      Row(0x01, 0xFB, 0xC4, Show(14)),
      Row(0x01, 0xFC, 0xC4, Show(15)),
      Row(0x01, 0xFD, 0xC4, Show(16)),
      Row(0x01, 0xFE, 0xC4, Show(17)),
      Row(0x01, 0xFF, 0xC4, Show(18))
    ]
  }

  function WarningsA(): seq<Row> {
    [
      Row(0x00, 0x00, 0xC8, Show(19)),
      Row(0x00, 0x01, 0xC8, Show(20)),
      Row(0x00, 0x03, 0xC8, Show(21)),
      Row(0x00, 0x04, 0xC8, Show(22)),
      Row(0x00, 0x05, 0xC8, Show(23)),
      Row(0x00, 0x08, 0xC8, Show(24)),
      Row(0x00, 0x0A, 0xC8, Show(25)),
      Row(0x00, 0x0D, 0xC8, Show(26)),
      Row(0x00, 0x0F, 0xC8, Show(27)),
      Row(0x00, 0x11, 0xC8, Show(28)),
      Row(0x00, 0x12, 0xC8, Show(29)),
      Row(0x00, 0x13, 0xC8, Show(30)),
      Row(0x00, 0x14, 0xC8, Show(31)),
      Row(0x00, 0x61, 0xC8, Show(32)),
      Row(0x00, 0x62, 0xC8, Show(33)),
      Row(0x00, 0x64, 0xC8, Show(34)),
      Row(0x00, 0x67, 0xC8, Show(35)),
      Row(0x00, 0x68, 0xC8, Show(36)),
      Row(0x00, 0x69, 0xC8, Show(37))
    ]
  }

  function WarningsB(): seq<Row> {
    [
      Row(0x00, 0x6A, 0xC8, Show(38)),
      Row(0x00, 0x6B, 0xC8, Show(39)),
      Row(0x00, 0x6C, 0xC8, Show(40)),
      Row(0x00, 0x6D, 0xC8, Show(41)),
      Row(0x00, 0x6E, 0xC8, Show(42)),
      Row(0x00, 0x6F, 0xC8, Show(43)),
      Row(0x00, 0x73, 0xC8, Show(44)),
      Row(0x00, 0x74, 0xC8, Show(45)),
      Row(0x00, 0x75, 0xC8, Show(46)),
      Row(0x00, 0x76, 0xC8, Show(47)),
      Row(0x00, 0x78, 0xC8, Show(48)),
      Row(0x00, 0x7A, 0xC8, Show(49)),
      Row(0x00, 0x7B, 0xC8, Show(50)),
      Row(0x00, 0x7D, 0xC8, Show(51)),
      Row(0x00, 0x7E, 0xC8, Show(52)),
      Row(0x00, 0x7F, 0xC8, Show(53)),
      Row(0x00, 0x81, 0xC8, Show(54)),
      Row(0x00, 0x83, 0xC8, Show(55)),
      Row(0x00, 0x88, 0xC8, Show(56))
    ]
  }

  function WarningsC(): seq<Row> {
    [
      Row(0x00, 0x89, 0xC8, Show(57)),
      Row(0x00, 0x8A, 0xC8, Show(58)),
      Row(0x00, 0x8D, 0xC8, Show(59)),
      Row(0x00, 0x97, 0xC8, Show(60)),
      Row(0x00, 0x9A, 0xC8, Show(61)),
      Row(0x00, 0x9B, 0xC8, Show(62)),
      Row(0x00, 0x9C, 0xC8, Show(63)),
      Row(0x00, 0x9D, 0xC8, Show(64)),
      Row(0x00, 0x9E, 0xC8, Show(65)),
      Row(0x00, 0x9F, 0xC8, Show(66)),
      Row(0x00, 0xA0, 0xC8, Show(67)),
      Row(0x00, 0xCD, 0xC8, Show(68)),
      Row(0x00, 0xCE, 0xC8, Show(69)),
      Row(0x00, 0xD2, 0xC8, Show(70)),
      Row(0x00, 0xD3, 0xC8, Show(71)),
      Row(0x00, 0xD7, 0xC8, Show(72)),
      Row(0x00, 0xD8, 0xC8, Show(73)),
      Row(0x00, 0xD9, 0xC8, Show(74))
    ]
  }

  function DoorRows(): seq<Row> {
    [
      Row(0x00, 0xDE, 0xC8, DecodeDoors),
      Row(0x00, 0x0B, 0xC8, DecodeDoors)
    ]
  }

  function WarningsD(): seq<Row> {
    [
      Row(0x00, 0xDF, 0xC8, Show(75)),
      Row(0x00, 0xE0, 0xC8, Show(76)),
      Row(0x00, 0xE1, 0xC8, Show(77)),
      Row(0x00, 0xE3, 0xC8, Show(78)),
      Row(0x00, 0xE5, 0xC8, Show(79)),
      Row(0x00, 0xE7, 0xC8, Show(80)),
      Row(0x00, 0xE8, 0xC8, Show(81)),
      Row(0x00, 0xEB, 0xC8, Show(82)),
      Row(0x00, 0xEC, 0xC8, Show(83)),
      Row(0x00, 0xEF, 0xC8, Show(84)),
      Row(0x00, 0xF0, 0xC8, Show(85)),
      Row(0x00, 0xF1, 0xC8, Show(86)),
      Row(0x00, 0xF7, 0xC8, Show(87)),
      Row(0x00, 0xF8, 0xC8, Show(88)),
      Row(0x00, 0xF9, 0xC8, Show(89))
    ]
  }

  /** All patterns, in the order the source tests them. */
  function Table(): seq<Row> {
    RoofAndComfort() + WarningsA() + WarningsB() + WarningsC() + DoorRows() + WarningsD()
  }

  /** Index of the first row of `rows` that matches, if any. */
  function FirstMatch(rows: seq<Row>, data: seq<byte>): (r: Option<nat>)
    ensures r.Some? ==> r.value < |rows| && Matches(rows[r.value], data)
    ensures r.Some? ==> forall j :: 0 <= j < r.value ==> !Matches(rows[j], data)
    ensures r.None? ==> forall j :: 0 <= j < |rows| ==> !Matches(rows[j], data)
  {
    if rows == [] then None
    else if Matches(rows[0], data) then Some(0)
    else match FirstMatch(rows[1..], data)
      case None => None
      case Some(k) => Some(k + 1)
  }

  /** The action of the branch `parseInfoMessage` takes, or `None` for its
      final `else`. */
  function Lookup(data: seq<byte>): (r: Option<Action>)
    ensures r.None? <==> forall j :: 0 <= j < |Table()| ==> !Matches(Table()[j], data)
    ensures r.Some? <==> exists j :: 0 <= j < |Table()| && Matches(Table()[j], data) && Table()[j].action == r.value
  {
    match FirstMatch(Table(), data)
    case None => None
    case Some(i) => Some(Table()[i].action)
  }

  // ---------------------------------------------------------------------------
  // At most one row matches

  /** The pair of bytes a row pins down exactly, as one number. */
  function Key(r: Row): int {
    r.b1 as int * 256 + r.b2 as int
  }

  /** Two rows that match the same payload have the same key. */
  lemma SameMatchSameKey(r: Row, s: Row, data: seq<byte>)
    requires Matches(r, data) && Matches(s, data)
    ensures Key(r) == Key(s)
  {
  }

  predicate KeysDistinct(rows: seq<Row>) {
    forall i, j :: 0 <= i < j < |rows| ==> Key(rows[i]) != Key(rows[j])
  }

  predicate KeysApart(a: seq<Row>, b: seq<Row>) {
    forall i, j :: 0 <= i < |a| && 0 <= j < |b| ==> Key(a[i]) != Key(b[j])
  }

  predicate KeysIncreasing(rows: seq<Row>) {
    forall k :: 0 <= k < |rows| - 1 ==> Key(rows[k]) < Key(rows[k + 1])
  }

  predicate KeysWithin(rows: seq<Row>, lo: int, hi: int) {
    forall k :: 0 <= k < |rows| ==> lo <= Key(rows[k]) <= hi
  }

  /** Keys that increase from each row to the next increase throughout. */
  lemma {:induction false} IncreasingPair(rows: seq<Row>, i: int, j: int)
    requires KeysIncreasing(rows) && 0 <= i < j < |rows|
    ensures Key(rows[i]) < Key(rows[j])
    decreases j - i
  {
    if i + 1 < j {
      IncreasingPair(rows, i + 1, j);
    }
  }

  /** A chunk whose keys increase has distinct keys, all between its first
      and its last. */
  lemma IncreasingDistinct(rows: seq<Row>)
    requires KeysIncreasing(rows) && |rows| >= 1
    ensures KeysDistinct(rows)
    ensures KeysWithin(rows, Key(rows[0]), Key(rows[|rows| - 1]))
  {
    forall i, j | 0 <= i < j < |rows|
      ensures Key(rows[i]) < Key(rows[j])
    {
      IncreasingPair(rows, i, j);
    }
  }

  /** Chunks whose key ranges do not overlap have no key in common. */
  lemma ApartByRange(a: seq<Row>, alo: int, ahi: int, b: seq<Row>, blo: int, bhi: int)
    requires KeysWithin(a, alo, ahi) && KeysWithin(b, blo, bhi)
    requires ahi < blo || bhi < alo
    ensures KeysApart(a, b)
  {
  }

  /** Concatenation keeps keys distinct when the parts share none. */
  lemma DistinctAppend(a: seq<Row>, b: seq<Row>)
    requires KeysDistinct(a) && KeysDistinct(b) && KeysApart(a, b)
    ensures KeysDistinct(a + b)
  {
    forall i, j | 0 <= i < j < |a + b|
      ensures Key((a + b)[i]) != Key((a + b)[j])
    {
      if j < |a| {
        assert (a + b)[i] == a[i] && (a + b)[j] == a[j];
      } else if i >= |a| {
        assert (a + b)[i] == b[i - |a|] && (a + b)[j] == b[j - |a|];
      } else {
        assert (a + b)[i] == a[i] && (a + b)[j] == b[j - |a|];
      }
    }
  }

  /** A part apart from two chunks is apart from their concatenation. */
  lemma ApartAppend(a: seq<Row>, b: seq<Row>, c: seq<Row>)
    requires KeysApart(a, c) && KeysApart(b, c)
    ensures KeysApart(a + b, c)
  {
    forall i, j | 0 <= i < |a + b| && 0 <= j < |c|
      ensures Key((a + b)[i]) != Key(c[j])
    {
      if i < |a| {
        assert (a + b)[i] == a[i];
      } else {
        assert (a + b)[i] == b[i - |a|];
      }
    }
  }

  /** The chunk's keys increase from `lo` to `hi`. */
  predicate SortedChunk(rows: seq<Row>, lo: int, hi: int) {
    |rows| >= 1 && KeysIncreasing(rows) && Key(rows[0]) == lo && Key(rows[|rows| - 1]) == hi
  }

  /** Every pattern tests for a nibble 0 or 1 in byte 0 and for 0xC in the
      high nibble of byte 2, and exactly the two
      door patterns decode doors. */
  predicate WellFormedRow(r: Row) {
    r.b1 <= 0x01 && r.b3 & 0xF0 == 0xC0 && (r.action.DecodeDoors? <==> r.b1 == 0x00 && (r.b2 == 0xDE || r.b2 == 0x0B))
  }

  predicate AllWellFormed(rows: seq<Row>) {
    forall k :: 0 <= k < |rows| ==> WellFormedRow(rows[k])
  }

  lemma RoofAndComfortSorted() ensures SortedChunk(RoofAndComfort(), 0x12F, 0x1FF) {}
  lemma WarningsASorted() ensures SortedChunk(WarningsA(), 0x000, 0x069) {}
  lemma WarningsBSorted() ensures SortedChunk(WarningsB(), 0x06A, 0x088) {}
  lemma WarningsCSorted() ensures SortedChunk(WarningsC(), 0x089, 0x0D9) {}
  lemma WarningsDSorted() ensures SortedChunk(WarningsD(), 0x0DF, 0x0F9) {}

  lemma RoofAndComfortWellFormed() ensures AllWellFormed(RoofAndComfort()) {}
  lemma WarningsAWellFormed() ensures AllWellFormed(WarningsA()) {}
  lemma WarningsBWellFormed() ensures AllWellFormed(WarningsB()) {}
  lemma WarningsCWellFormed() ensures AllWellFormed(WarningsC()) {}
  lemma WarningsDWellFormed() ensures AllWellFormed(WarningsD()) {}

  /** The door pattern 0x0B falls inside the range of the first warnings
      chunk, but is none of its keys. */
  lemma DoorKeys()
    ensures |DoorRows()| == 2 && Key(DoorRows()[0]) == 0x0DE && Key(DoorRows()[1]) == 0x00B
    ensures AllWellFormed(DoorRows())
    ensures forall k :: 0 <= k < |WarningsA()| ==> Key(WarningsA()[k]) != 0x00B
  {
  }

  /** No key of the chunk is `k`, nor between `lo` and `hi`. */
  predicate KeysAvoid(rows: seq<Row>, k: int, lo: int, hi: int) {
    forall i :: 0 <= i < |rows| ==> Key(rows[i]) != k && !(lo <= Key(rows[i]) <= hi)
  }

  /** The first four chunks of the table: sorted, in disjoint key ranges. */
  lemma {:induction false} FourChunksDistinct(c1: seq<Row>, c2: seq<Row>, c3: seq<Row>, c4: seq<Row>)
    requires SortedChunk(c1, 0x12F, 0x1FF) && SortedChunk(c2, 0x000, 0x069) && SortedChunk(c3, 0x06A, 0x088)
    requires SortedChunk(c4, 0x089, 0x0D9)
    requires forall k :: 0 <= k < |c2| ==> Key(c2[k]) != 0x00B
    ensures KeysDistinct(c1 + c2 + c3 + c4)
    ensures KeysAvoid(c1 + c2 + c3 + c4, 0x00B, 0x0DA, 0x0F9)
  {
    IncreasingDistinct(c1);
    IncreasingDistinct(c2);
    IncreasingDistinct(c3);
    IncreasingDistinct(c4);
    ApartByRange(c1, 0x12F, 0x1FF, c2, 0x000, 0x069);
    DistinctAppend(c1, c2);
    ApartByRange(c1, 0x12F, 0x1FF, c3, 0x06A, 0x088);
    ApartByRange(c2, 0x000, 0x069, c3, 0x06A, 0x088);
    ApartAppend(c1, c2, c3);
    DistinctAppend(c1 + c2, c3);
    ApartByRange(c1, 0x12F, 0x1FF, c4, 0x089, 0x0D9);
    ApartByRange(c2, 0x000, 0x069, c4, 0x089, 0x0D9);
    ApartByRange(c3, 0x06A, 0x088, c4, 0x089, 0x0D9);
    ApartAppend(c1, c2, c4);
    ApartAppend(c1 + c2, c3, c4);
    DistinctAppend(c1 + c2 + c3, c4);
    var p4 := c1 + c2 + c3 + c4;
    forall i | 0 <= i < |p4|
      ensures Key(p4[i]) != 0x00B && !(0x0DA <= Key(p4[i]) <= 0x0F9)
    {
      if i < |c1| {
        assert p4[i] == c1[i];
      } else if i < |c1 + c2| {
        assert p4[i] == c2[i - |c1|];
      } else if i < |c1 + c2 + c3| {
        assert p4[i] == c3[i - |c1 + c2|];
      } else {
        assert p4[i] == c4[i - |c1 + c2 + c3|];
      }
    }
  }

  /** The rest of the table: the two door rows and the last chunk, after
      rows whose keys avoid theirs. */
  lemma {:induction false} TailDistinct(p: seq<Row>, d: seq<Row>, c5: seq<Row>)
    requires KeysDistinct(p) && KeysAvoid(p, 0x00B, 0x0DA, 0x0F9)
    requires |d| == 2 && Key(d[0]) == 0x0DE && Key(d[1]) == 0x00B
    requires SortedChunk(c5, 0x0DF, 0x0F9)
    ensures KeysDistinct(p + d + c5)
  {
    IncreasingDistinct(c5);
    assert KeysDistinct(d);
    forall i, j | 0 <= i < |p| && 0 <= j < |d|
      ensures Key(p[i]) != Key(d[j])
    {
    }
    DistinctAppend(p, d);
    forall i, j | 0 <= i < |p + d| && 0 <= j < |c5|
      ensures Key((p + d)[i]) != Key(c5[j])
    {
      if i < |p| {
        assert (p + d)[i] == p[i];
      } else {
        assert (p + d)[i] == d[i - |p|];
      }
    }
    DistinctAppend(p + d, c5);
  }

  /** No two patterns of the table pin down the same bytes 0 and 1, so at most
      one branch of the chain can ever match and the order of the tests does
      not matter. */
  lemma TableKeysDistinct()
    ensures KeysDistinct(Table())
  {
    RoofAndComfortSorted();
    WarningsASorted();
    WarningsBSorted();
    WarningsCSorted();
    WarningsDSorted();
    DoorKeys();
    FourChunksDistinct(RoofAndComfort(), WarningsA(), WarningsB(), WarningsC());
    TailDistinct(RoofAndComfort() + WarningsA() + WarningsB() + WarningsC(), DoorRows(), WarningsD());
  }

  lemma WellFormedAppend(a: seq<Row>, b: seq<Row>)
    requires AllWellFormed(a) && AllWellFormed(b)
    ensures AllWellFormed(a + b)
  {
    forall k | 0 <= k < |a + b|
      ensures WellFormedRow((a + b)[k])
    {
      if k < |a| {
        assert (a + b)[k] == a[k];
      } else {
        assert (a + b)[k] == b[k - |a|];
      }
    }
  }

  /** The table has 92 patterns; each asks for 0 or 1 in the low nibble of
      the first byte and for 0xC in the high nibble of the third byte, and only the patterns (0x00, 0xDE) and (0x00, 0x0B) decode
      the doors. */
  lemma TableWellFormed()
    ensures |Table()| == 92
    ensures AllWellFormed(Table())
  {
    RoofAndComfortWellFormed();
    WarningsAWellFormed();
    WarningsBWellFormed();
    WarningsCWellFormed();
    WarningsDWellFormed();
    DoorKeys();
    var c1, c2, c3, c4, d := RoofAndComfort(), WarningsA(), WarningsB(), WarningsC(), DoorRows();
    WellFormedAppend(c1, c2);
    WellFormedAppend(c1 + c2, c3);
    WellFormedAppend(c1 + c2 + c3, c4);
    WellFormedAppend(c1 + c2 + c3 + c4, d);
    WellFormedAppend(c1 + c2 + c3 + c4 + d, WarningsD());
  }

  /** At most one row of the table matches a payload. */
  lemma AtMostOneMatch(data: seq<byte>, i: nat, j: nat)
    requires i < |Table()| && j < |Table()|
    requires Matches(Table()[i], data) && Matches(Table()[j], data)
    ensures i == j
  {
    TableKeysDistinct();
    SameMatchSameKey(Table()[i], Table()[j], data);
  }

  /** The chain's answer does not depend on which matching row is found
      first: any matching row gives it. */
  lemma LookupAnyMatch(data: seq<byte>, j: nat)
    requires j < |Table()| && Matches(Table()[j], data)
    ensures Lookup(data) == Some(Table()[j].action)
  {
    var i := FirstMatch(Table(), data).value;
    AtMostOneMatch(data, i, j);
  }

  /** Nothing matches unless the third byte's high nibble is 0xC. */
  lemma NeedsC0(data: seq<byte>)
    requires |data| >= 3 && data[2] & 0xF0 != 0xC0
    ensures Lookup(data) == None
  {
    TableWellFormed();
  }

  /** A door pattern is looked up as the door row. */
  lemma DoorLookup(data: seq<byte>)
    requires |data| >= 3
    requires data[0] & 0x0F == 0x00 && (data[1] == 0xDE || data[1] == 0x0B) && data[2] & 0xF0 == 0xC0
    ensures Lookup(data) == Some(DecodeDoors)
  {
    DoorBranch(data);
  }

  /** The door branch is taken exactly for the patterns (0x00, 0xDE) and
      (0x00, 0x0B) with a third byte 0xC_. */
  lemma DoorBranch(data: seq<byte>)
    ensures Lookup(data) == Some(DecodeDoors) <==>
      |data| >= 3 && data[0] & 0x0F == 0x00 && (data[1] == 0xDE || data[1] == 0x0B) && data[2] & 0xF0 == 0xC0
  {
    TableWellFormed();
    DoorKeys();
    var c := RoofAndComfort() + WarningsA() + WarningsB() + WarningsC();
    if |data| >= 3 && data[0] & 0x0F == 0x00 && (data[1] == 0xDE || data[1] == 0x0B) && data[2] & 0xF0 == 0xC0 {
      var k := if data[1] == 0xDE then 0 else 1;
      assert Table()[|c| + k] == DoorRows()[k];
      LookupAnyMatch(data, |c| + k);
    }
  }

  // ---------------------------------------------------------------------------
  // Which payloads the chain reads without trapping

  /** `parseInfoMessage`'s tests read only bytes the payload has. */
  predicate InfoReadable(data: seq<byte>) {
    ChainReadable(Table(), data)
  }

  /** A match needs three bytes, which every test can read, so the chain is
      readable exactly when every row's test is, whether or not it is
      evaluated. */
  lemma {:induction false} ChainReadableAll(rows: seq<Row>, data: seq<byte>)
    ensures ChainReadable(rows, data) <==> forall j :: 0 <= j < |rows| ==> RowReadable(rows[j], data)
    decreases |rows|
  {
    if rows != [] {
      ChainReadableAll(rows[1..], data);
      assert forall j :: 1 <= j < |rows| ==> rows[j] == rows[1..][j - 1];
      if Matches(rows[0], data) {
        assert |data| >= 3;
      }
    }
  }

  /** Bytes 0 and 1 are the key of some pattern. */
  predicate KnownKey(nibble: byte, b: byte) {
    exists j :: 0 <= j < |Table()| && Table()[j].b1 == nibble && Table()[j].b2 == b
  }

  /** The first pattern tests for nibble 1, the twentieth for nibble 0. */
  lemma BothNibbles()
    ensures |Table()| > 19 && Table()[0].b1 == 0x01 && Table()[19].b1 == 0x00
  {
    assert |RoofAndComfort()| == 19;
    assert Table()[19] == WarningsA()[0];
  }

  /** The payloads `parseInfoMessage` tests without trapping: at least one
      byte; a second when the low nibble of byte 0 is 0 or 1, the nibbles the
      patterns test for; a third when bytes 0 and 1 are a pattern's key. */
  lemma InfoReadableBytes(data: seq<byte>)
    ensures InfoReadable(data) <==>
      |data| >= 1 && (data[0] & 0x0F <= 0x01 ==> |data| >= 2)
      && (|data| == 2 ==> !KnownKey(data[0] & 0x0F, data[1]))
  {
    TableWellFormed();
    BothNibbles();
    ChainReadableAll(Table(), data);
    var t := Table();
    if InfoReadable(data) {
      assert RowReadable(t[0], data);
      if data[0] & 0x0F <= 0x01 {
        var j0 := if data[0] & 0x0F == 0x01 then 0 else 19;
        assert RowReadable(t[j0], data);
      }
      if |data| == 2 {
        assert forall j :: 0 <= j < |t| ==> !(t[j].b1 == data[0] & 0x0F && t[j].b2 == data[1]);
      }
    } else {
      var j :| 0 <= j < |t| && !RowReadable(t[j], data);
      assert WellFormedRow(t[j]);
      if |data| == 2 {
        assert KnownKey(data[0] & 0x0F, data[1]);
      }
    }
  }

  /** Payloads of three bytes or more are always tested without trapping. */
  lemma LongReadable(data: seq<byte>)
    requires |data| >= 3
    ensures InfoReadable(data)
  {
    ChainReadableAll(Table(), data);
  }

  /** No pattern matches a payload shorter than three bytes. */
  lemma ShortUnmatched(data: seq<byte>)
    requires |data| < 3
    ensures Lookup(data) == None
  {
  }
}
