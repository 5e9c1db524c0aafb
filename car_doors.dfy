/**
 * The open-doors bitset of CarDash/CarDoors.swift and its French summary
 * ("Portière avant gauche ouverte", "Coffre et capot ouverts", ...).
 *
 * The Swift option set stores an `Int`; every flag fits in the low eight bits,
 * so the raw value is modelled as a `bv8`.
 */
module Doors {
  /** The seven flags of `CarDoors`. */
  datatype Door = FrontLeft | FrontRight | RearLeft | RearRight | Trunk | Hood | FuelFlap

  /** The raw bit of each flag. Bit 1 (value 2) is not used. */
  function RawBit(d: Door): bv8 {
    match d
    case FrontLeft => 1
    case FrontRight => 4
    case RearLeft => 8
    case RearRight => 16
    case Trunk => 32
    case Hood => 64
    case FuelFlap => 128
  }

  /** The four "main" doors, in the order the summary examines them. */
  const MAIN_DOORS: seq<Door> := [FrontLeft, FrontRight, RearLeft, RearRight]

  /** How the summary names a main door when it is the only one open. */
  function DoorPhrase(d: Door): string {
    match d
    case FrontLeft => "portière avant gauche"
    case FrontRight => "portière avant droite"
    case RearLeft => "portière arrière gauche"
    case RearRight => "portière arrière droite"
    case Trunk => "coffre"
    case Hood => "capot"
    case FuelFlap => "trappe réservoir"
  }

  datatype CarDoors = CarDoors(rawValue: bv8)
  {
    /** `contains`: every bit of the flag is set. */
    predicate Contains(d: Door) {
      rawValue & RawBit(d) == RawBit(d)
    }

    /** `insert`: the union with one flag. */
    function Insert(d: Door): (r: CarDoors)
      ensures forall e :: r.Contains(e) <==> e == d || Contains(e)
    {
      FlagsDisjoint();
      CarDoors(rawValue | RawBit(d))
    }

    /** Number of doors of `doors` that are open: none exactly when every one
        is closed, all exactly when every one is open. */
    function CountOpen(doors: seq<Door>): (n: nat)
      ensures n <= |doors|
      ensures n == 0 <==> forall k :: 0 <= k < |doors| ==> !Contains(doors[k])
      ensures n == |doors| <==> forall k :: 0 <= k < |doors| ==> Contains(doors[k])
    {
      if doors == [] then 0
      else CountOpen(doors[..|doors| - 1]) + (if Contains(doors[|doors| - 1]) then 1 else 0)
    }

    /** Number of main doors open, as the source's counting loop finds it. */
    function MainDoorsOpen(): (n: nat)
      ensures n <= 4
    {
      (if Contains(FrontLeft) then 1 else 0) + (if Contains(FrontRight) then 1 else 0)
      + (if Contains(RearLeft) then 1 else 0) + (if Contains(RearRight) then 1 else 0)
    }

    /** The item naming the main doors: "portières" for two or more; otherwise
        the phrase of each open main door, of which there is at most one. */
    function MainItem(): seq<string> {
      if MainDoorsOpen() >= 2 then ["portières"]
      else
        (if Contains(FrontLeft) then [DoorPhrase(FrontLeft)] else [])
        + (if Contains(FrontRight) then [DoorPhrase(FrontRight)] else [])
        + (if Contains(RearLeft) then [DoorPhrase(RearLeft)] else [])
        + (if Contains(RearRight) then [DoorPhrase(RearRight)] else [])
    }

    /** Everything to mention, in order: main doors, trunk, hood, fuel flap. */
    function Items(): seq<string> {
      MainItem()
      + (if Contains(Trunk) then [DoorPhrase(Trunk)] else [])
      + (if Contains(Hood) then [DoorPhrase(Hood)] else [])
      + (if Contains(FuelFlap) then [DoorPhrase(FuelFlap)] else [])
    }

    /** Agreement of "ouvert": feminine unless the trunk or the hood (both
        masculine) is open; plural for two or more items or main doors. */
    function Suffix(): string {
      " ouvert"
      + (if !Contains(Trunk) && !Contains(Hood) then "e" else "")
      + (if |Items()| >= 2 || MainDoorsOpen() >= 2 then "s" else "")
    }

    /** The summary `stringRepresentation` promises. */
    function Representation(): string {
      UpperFirst(JoinFrench(Items()) + Suffix())
    }

    /** The first half of `stringRepresentation`: counting the open main doors
        and naming them. */
    method MainDoorStrings() returns (doorStrings: seq<string>, mainDoorsOpen: nat)
      ensures doorStrings == MainItem()
      ensures mainDoorsOpen == MainDoorsOpen()
    {
      doorStrings := [];
      mainDoorsOpen := 0;
      var i := 0;
      while i < |MAIN_DOORS|
        invariant 0 <= i <= |MAIN_DOORS|
        invariant mainDoorsOpen == CountOpen(MAIN_DOORS[..i])
      {
        assert MAIN_DOORS[..i + 1][..i] == MAIN_DOORS[..i];
        if Contains(MAIN_DOORS[i]) {
          mainDoorsOpen := mainDoorsOpen + 1;
        }
        i := i + 1;
      }
      assert MAIN_DOORS[..i] == MAIN_DOORS;
      CountOpenMain();

      if mainDoorsOpen >= 2 {
        doorStrings := doorStrings + ["portières"];
      } else if mainDoorsOpen == 1 {
        if Contains(FrontLeft) {
          doorStrings := doorStrings + ["portière avant gauche"];
        }
        if Contains(FrontRight) {
          doorStrings := doorStrings + ["portière avant droite"];
        }
        if Contains(RearLeft) {
          doorStrings := doorStrings + ["portière arrière gauche"];
        }
        if Contains(RearRight) {
          doorStrings := doorStrings + ["portière arrière droite"];
        }
      }
    }

    /** `stringRepresentation`, step by step as the source builds it. */
    method StringRepresentation() returns (s: string)
      ensures s == Representation()
    {
      var doorStrings, mainDoorsOpen := MainDoorStrings();

      if Contains(Trunk) {
        doorStrings := doorStrings + ["coffre"];
      }
      if Contains(Hood) {
        doorStrings := doorStrings + ["capot"];
      }
      if Contains(FuelFlap) {
        doorStrings := doorStrings + ["trappe réservoir"];
      }
      assert doorStrings == Items();

      var suffix := " ouvert";
      if !Contains(Trunk) && !Contains(Hood) {
        suffix := suffix + "e";
      }
      if |doorStrings| >= 2 || mainDoorsOpen >= 2 {
        suffix := suffix + "s";
      }
      assert suffix == Suffix();
      ghost var items := doorStrings;

      if |doorStrings| >= 2 {
        var last2 := doorStrings[|doorStrings| - 1];
        doorStrings := doorStrings[..|doorStrings| - 1];
        var last1 := doorStrings[|doorStrings| - 1];
        doorStrings := doorStrings[..|doorStrings| - 1];
        doorStrings := doorStrings + [last1 + " et " + last2];
        assert doorStrings == items[..|items| - 2] + [items[|items| - 2] + " et " + items[|items| - 1]];
        JoinLastTwo(items);
      } else {
        assert Joined(doorStrings, ", ") == JoinFrench(items);
      }
      var result := Joined(doorStrings, ", ") + suffix;
      s := UpperFirst(result);
    }

    /** The counting loop over the four main doors finds `MainDoorsOpen`. */
    lemma CountOpenMain()
      ensures CountOpen(MAIN_DOORS) == MainDoorsOpen()
    {
      var fl, fr, rl := [FrontLeft], [FrontLeft, FrontRight], [FrontLeft, FrontRight, RearLeft];
      assert fl[..0] == [];
      assert CountOpen(fl) == (if Contains(FrontLeft) then 1 else 0);
      assert fr[..1] == fl;
      assert CountOpen(fr) == CountOpen(fl) + (if Contains(FrontRight) then 1 else 0);
      assert rl[..2] == fr;
      assert CountOpen(rl) == CountOpen(fr) + (if Contains(RearLeft) then 1 else 0);
      assert MAIN_DOORS[..3] == rl;
    }
  }

  /** `CarDoors.None`. */
  const NONE := CarDoors(0)

  /** The join of `Array.joined(separator:)`. */
  function Joined(xs: seq<string>, sep: string): string {
    if xs == [] then ""
    else if |xs| == 1 then xs[0]
    else xs[0] + sep + Joined(xs[1..], sep)
  }

  /** The French enumeration: items separated by ", ", except the last two,
      which are joined by " et ". */
  function JoinFrench(xs: seq<string>): string {
    if |xs| < 2 then Joined(xs, ", ")
    else Joined(xs[..|xs| - 1], ", ") + " et " + xs[|xs| - 1]
  }

  /** ASCII upper case of one character. */
  function Upper(c: char): char {
    if 'a' <= c <= 'z' then (c as int - 32) as char else c
  }

  /** Upper-cases the first character and keeps the rest. */
  function UpperFirst(s: string): (r: string)
    ensures |r| == |s|
    ensures s != [] ==> r[0] == Upper(s[0]) && r[1..] == s[1..]
  {
    if s == [] then [] else [Upper(s[0])] + s[1..]
  }

  // ---------------------------------------------------------------------------
  // The bitset

  /** The flags are distinct single bits; bit 1 is not used. */
  lemma FlagsDisjoint()
    ensures forall d :: RawBit(d) != 0 && RawBit(d) & (RawBit(d) - 1) == 0 && RawBit(d) != 2
    ensures forall d, e :: d != e ==> RawBit(d) & RawBit(e) == 0
  {
  }

  /** `None` contains no flag, and a door set is determined by its flags. */
  lemma NoneIsEmpty(d: Door)
    ensures !NONE.Contains(d)
  {
  }

  /** Inserting a flag twice is inserting it once; the order of insertions
      does not matter. */
  lemma InsertCommutes(c: CarDoors, d: Door, e: Door)
    ensures c.Insert(d).Insert(d) == c.Insert(d)
    ensures c.Insert(d).Insert(e) == c.Insert(e).Insert(d)
  {
  }

  // ---------------------------------------------------------------------------
  // Joining

  /** Joining a non-empty list with one more item appends the separator and
      the item. */
  lemma {:induction false} JoinedSnoc(xs: seq<string>, x: string, sep: string)
    requires xs != []
    ensures Joined(xs + [x], sep) == Joined(xs, sep) + sep + x
    decreases |xs|
  {
    if |xs| == 1 {
      assert (xs + [x])[1..] == [x];
    } else {
      assert (xs + [x])[1..] == xs[1..] + [x];
      JoinedSnoc(xs[1..], x, sep);
    }
  }

  /** Replacing the last two items by "a et b" and joining with ", " is the
      French enumeration. */
  lemma JoinLastTwo(xs: seq<string>)
    requires |xs| >= 2
    ensures Joined(xs[..|xs| - 2] + [xs[|xs| - 2] + " et " + xs[|xs| - 1]], ", ") == JoinFrench(xs)
  {
    var n := |xs|;
    var front := xs[..n - 2];
    var merged := xs[n - 2] + " et " + xs[n - 1];
    assert xs[..n - 1] == front + [xs[n - 2]];
    if front == [] {
      assert xs[..n - 1] == [xs[n - 2]];
    } else {
      JoinedSnoc(front, merged, ", ");
      JoinedSnoc(front, xs[n - 2], ", ");
    }
  }

  // ---------------------------------------------------------------------------
  // The summary

  /** Which item names the main doors. */
  lemma MainItemRule(c: CarDoors)
    ensures c.MainDoorsOpen() >= 2 ==> c.MainItem() == ["portières"]
    ensures c.MainDoorsOpen() == 1 ==>
      exists d :: d in MAIN_DOORS && c.Contains(d) && c.MainItem() == [DoorPhrase(d)]
    ensures c.MainDoorsOpen() == 0 ==> c.MainItem() == []
  {
    if c.MainDoorsOpen() == 1 {
      if c.Contains(FrontLeft) {
        assert c.MainItem() == [DoorPhrase(FrontLeft)];
      } else if c.Contains(FrontRight) {
        assert c.MainItem() == [DoorPhrase(FrontRight)];
      } else if c.Contains(RearLeft) {
        assert c.MainItem() == [DoorPhrase(RearLeft)];
      } else {
        assert c.MainItem() == [DoorPhrase(RearRight)];
      }
    }
  }

  /** Every item starts with 'p', 'c' or 't'. */
  lemma ItemInitials(c: CarDoors)
    ensures forall k :: 0 <= k < |c.Items()| ==> c.Items()[k] != [] && c.Items()[k][0] in {'p', 'c', 't'}
  {
    MainItemRule(c);
  }

  /** A join of non-empty items starts with the first item. */
  lemma JoinedStartsWithFirst(xs: seq<string>, sep: string)
    requires xs != [] && xs[0] != []
    ensures |Joined(xs, sep)| >= 1 && Joined(xs, sep)[0] == xs[0][0]
  {
  }

  /** The result starts with the upper-cased first letter of its first item
      ('P', 'C' or 'T'), or, when nothing is open, with the space of the
      suffix. */
  lemma FirstCharacter(c: CarDoors)
    ensures |c.Representation()| >= 1
    ensures c.Representation()[0] in {'P', 'C', 'T', ' '}
    ensures c.Representation()[0] == ' ' <==> c.Items() == []
  {
    var items := c.Items();
    var text := JoinFrench(items) + c.Suffix();
    if items == [] {
      assert text == c.Suffix();
    } else {
      ItemInitials(c);
      var front := if |items| < 2 then items else items[..|items| - 1];
      assert front[0] == items[0];
      JoinedStartsWithFirst(front, ", ");
      assert text[0] == items[0][0];
    }
  }

  /** The summary ends in the agreed form of "ouvert". */
  lemma EndsWithSuffix(c: CarDoors)
    ensures |c.Suffix()| <= |c.Representation()|
    ensures c.Representation()[|c.Representation()| - |c.Suffix()|..] == c.Suffix()
  {
    var text := JoinFrench(c.Items()) + c.Suffix();
    var n := |text| - |c.Suffix()|;
    assert text[n..] == c.Suffix();
    if n == 0 {
      assert c.Representation()[0] == Upper(' ');
      assert c.Representation() == text;
    } else {
      assert c.Representation()[n..] == text[1..][n - 1..];
    }
  }

  /** The suffix rule, both ways: " ouvert", then "e" exactly when neither the
      trunk nor the hood is open, then "s" exactly when two or more items or
      two or more main doors are open. */
  lemma SuffixRule(c: CarDoors)
    ensures |c.Suffix()| >= 7 && c.Suffix()[..7] == " ouvert"
    ensures 'e' in c.Suffix()[7..] <==> !c.Contains(Trunk) && !c.Contains(Hood)
    ensures 's' in c.Suffix()[7..] <==> |c.Items()| >= 2 || c.MainDoorsOpen() >= 2
    ensures |c.Suffix()| <= 9
  {
    var masculine := c.Contains(Trunk) || c.Contains(Hood);
    var plural := |c.Items()| >= 2 || c.MainDoorsOpen() >= 2;
    var e := if !masculine then "e" else "";
    var s := if plural then "s" else "";
    var suffix := c.Suffix();
    assert suffix == " ouvert" + e + s;
    assert suffix[7..] == e + s;
    SuffixLetters(e, s, !masculine, plural);
  }

  /** The letters after " ouvert": an optional 'e', then an optional 's'. */
  lemma SuffixLetters(e: string, s: string, feminine: bool, plural: bool)
    requires e == (if feminine then "e" else "") && s == (if plural then "s" else "")
    ensures 'e' in e + s <==> feminine
    ensures 's' in e + s <==> plural
  {
    if feminine && plural {
      assert e + s == "es";
    }
  }

  /** The trunk alone. */
  lemma TrunkOnly(c: CarDoors)
    requires c == CarDoors(32)
    ensures c.Representation() == "Coffre ouvert"
  {
    assert c.MainDoorsOpen() == 0;
    assert c.Items() == ["coffre"];
    assert JoinFrench(c.Items()) == "coffre";
    assert c.Suffix() == " ouvert";
    UpperFirstJoin("coffre", " ouvert", "Coffre ouvert");
  }

  /** Upper-casing a summary only touches the first word. */
  lemma UpperFirstJoin(a: string, b: string, r: string)
    requires a != [] && r == [Upper(a[0])] + a[1..] + b
    ensures UpperFirst(a + b) == r
  {
    var s := a + b;
    assert s[0] == a[0];
    assert s[1..] == a[1..] + b;
    assert UpperFirst(s) == [Upper(s[0])] + s[1..];
  }

  /** Both front doors: the collective noun, feminine plural. */
  lemma FrontDoors(c: CarDoors)
    requires c == CarDoors(1 | 4)
    ensures c.Representation() == "Portières ouvertes"
  {
    assert c.MainDoorsOpen() == 2;
    assert c.Items() == ["portières"];
    assert JoinFrench(c.Items()) == "portières";
    assert c.Suffix() == " ouvertes";
    UpperFirstJoin("portières", " ouvertes", "Portières ouvertes");
  }

  /** The rear right door alone: its own phrase, feminine singular (the
      summary is this text with its first letter upper-cased). */
  lemma RearRightOnly(c: CarDoors)
    requires c == CarDoors(16)
    ensures JoinFrench(c.Items()) == "portière arrière droite" && c.Suffix() == " ouverte"
    ensures c.Representation() == "Portière arrière droite ouverte"
  {
    assert c.MainDoorsOpen() == 1;
    assert c.Items() == ["portière arrière droite"];
    assert JoinFrench(c.Items()) == "portière arrière droite";
    assert c.Suffix() == " ouverte";
    UpperFirstJoin("portière arrière droite", " ouverte", "Portière arrière droite ouverte");
  }

  /** Everything open: ", " between the first items and " et " before the
      last one; masculine plural because of the trunk and the hood. */
  lemma EverythingOpen()
    ensures CarDoors(0xFD).Items() == ["portières", "coffre", "capot", "trappe réservoir"]
    ensures JoinFrench(CarDoors(0xFD).Items()) == "portières" + ", " + "coffre" + ", " + "capot" + " et " + "trappe réservoir"
    ensures CarDoors(0xFD).Suffix() == " ouverts"
  {
    var c := CarDoors(0xFD);
    assert c.MainDoorsOpen() == 4;
    var items := ["portières", "coffre", "capot", "trappe réservoir"];
    assert c.Items() == items;
    assert items[..3] == ["portières", "coffre", "capot"];
    assert Joined(["capot"], ", ") == "capot";
    assert Joined(["coffre", "capot"], ", ") == "coffre" + ", " + "capot" by {
      assert ["coffre", "capot"][1..] == ["capot"];
    }
    assert Joined(items[..3], ", ") == "portières" + ", " + ("coffre" + ", " + "capot") by {
      assert items[..3][1..] == ["coffre", "capot"];
    }
  }

  /** Nothing open: only the suffix, a leading space and all. Callers only
      ask for a summary when something is open. */
  lemma NothingOpen()
    ensures NONE.Representation() == " ouverte"
  {
    assert NONE.MainDoorsOpen() == 0;
    assert NONE.Items() == [];
  }
}
