/** The status lines the camera screens show after a detection: the
    object screen's per-category summary and the person screen's count.
    Each comes with a decoder that reads the counts back. */
module StatusText {
  import opened Base
  import opened Text

  /** The categories of the object screen's line, in the order their
      parts appear. */
  datatype Noun = Object | Person | Sign {
    function Rank(): nat {
      match this
      case Object => 0
      case Person => 1
      case Sign => 2
    }
  }

  function Word(n: Noun): string {
    match n
    case Object => "object"
    case Person => "person"
    case Sign => "sign"
  }

  /** `${n} object${n > 1 ? "s" : ""}` and its person / sign versions. */
  function Part(count: nat, noun: Noun): string
    requires count > 0
  {
    NatToString(count) + " " + Word(noun) + (if count > 1 then "s" else "")
  }

  /** A category that made it into the line. */
  datatype Item = Item(count: nat, noun: Noun)

  predicate Positive(items: seq<Item>) {
    forall i :: 0 <= i < |items| ==> items[i].count > 0
  }

  function Render(items: seq<Item>): (r: seq<string>)
    requires Positive(items)
    ensures |r| == |items|
    ensures forall i :: 0 <= i < |items| ==> r[i] == Part(items[i].count, items[i].noun)
  {
    seq(|items|, i requires 0 <= i < |items| => Part(items[i].count, items[i].noun))
  }

  /** Each category comes after the ones before it in the line's order,
      so none is repeated. */
  predicate Ascending(items: seq<Item>) {
    forall i, j :: 0 <= i < j < |items| ==> items[i].noun.Rank() < items[j].noun.Rank()
  }

  /** The count a category has in the detection result. */
  function CountOf(noun: Noun, objects: nat, persons: int, signs: nat): int {
    match noun
    case Object => objects
    case Person => persons
    case Sign => signs
  }

  /** Some item is about `noun`. */
  predicate Lists(items: seq<Item>, noun: Noun) {
    exists i :: 0 <= i < |items| && items[i].noun == noun
  }

  /** The categories with a positive count, in the order objects,
      persons, signs, each with its count. */
  function Items(objects: nat, persons: int, signs: nat): (r: seq<Item>)
    ensures Positive(r) && Ascending(r)
    ensures forall i :: 0 <= i < |r| ==> r[i].count == CountOf(r[i].noun, objects, persons, signs)
    ensures forall n: Noun :: Lists(r, n) <==> CountOf(n, objects, persons, signs) > 0
  {
    var os := if objects > 0 then [Item(objects, Object)] else [];
    var ps := if persons > 0 then [Item(persons, Person)] else [];
    var ss := if signs > 0 then [Item(signs, Sign)] else [];
    var r := os + ps + ss;
    assert objects > 0 ==> r[0].noun == Object;
    assert persons > 0 ==> r[|os|].noun == Person;
    assert signs > 0 ==> r[|os| + |ps|].noun == Sign;
    r
  }

  const NoDetections := "No detections"
  const DetectedSuffix := " detected"

  /** The object screen's status after a successful detection: the
      parts of the listed categories joined by ", " and followed by
      " detected". */
  function DetectionStatus(objects: nat, persons: int, signs: nat): (s: string)
    ensures s == NoDetections <==> objects == 0 && persons <= 0 && signs == 0
    ensures s != NoDetections ==> s == Join(Render(Items(objects, persons, signs)), ", ") + DetectedSuffix
  {
    var parts := Render(Items(objects, persons, signs));
    if |parts| > 0 then
      var s := Join(parts, ", ") + DetectedSuffix;
      assert s[|s| - 1] == 'd';
      s
    else NoDetections
  }

  /** The counts a status line reports; persons are never negative here
      because a non-positive person count is left out of the line. */
  datatype Counts = Counts(objects: nat, persons: nat, signs: nat)

  function Record(acc: Counts, item: Item): Counts {
    match item.noun
    case Object => acc.(objects := item.count)
    case Person => acc.(persons := item.count)
    case Sign => acc.(signs := item.count)
  }

  /** Length of the run of decimal digits that starts `s`. */
  function SpanDigits(s: string): (n: nat)
    ensures n <= |s| && AllDigits(s[..n])
    decreases |s|
  {
    if |s| > 0 && IsDigit(s[0]) then
      var n := 1 + SpanDigits(s[1..]);
      assert s[..n] == [s[0]] + s[1..][..n - 1];
      n
    else 0
  }

  function NounAt(c: char): Option<Noun> {
    if c == 'o' then Some(Object) else if c == 'p' then Some(Person) else if c == 's' then Some(Sign) else None
  }

  /** Reads one `<count> <noun>[s]` from the front of `s`, returning the
      item and what follows it. */
  function DecodePart(s: string): (r: Option<(Item, string)>)
    ensures r.Some? ==> |r.value.1| < |s|
  {
    var d := SpanDigits(s);
    if d == 0 || d >= |s| || s[d] != ' ' then None
    else
      var count := ParseDecimal(s[..d]);
      if count == 0 then None else DecodeNoun(count, s[d + 1..])
  }

  /** Reads the `<noun>[s]` after a positive count. */
  function DecodeNoun(count: nat, t: string): (r: Option<(Item, string)>)
    requires count > 0
    ensures r.Some? ==> |r.value.1| < |t|
  {
    if |t| == 0 then None
    else match NounAt(t[0])
      case None => None
      case Some(noun) =>
        var w := Word(noun);
        if |t| < |w| || t[..|w|] != w then None
        else
          var u := t[|w|..];
          if count == 1 then Some((Item(count, noun), u))
          else if 0 < |u| && u[0] == 's' then Some((Item(count, noun), u[1..]))
          else None
  }

  /** Reads `part, part, ...` into the counts. Every part must name a
      category of rank at least `floor` and the categories must come in
      the line's order, so a repeated or misplaced part is refused. */
  function DecodeParts(s: string, acc: Counts, floor: nat): Option<Counts>
    decreases |s|
  {
    match DecodePart(s)
    case None => None
    case Some((item, rest)) =>
      var next := Record(acc, item);
      if item.noun.Rank() < floor then None
      else if rest == "" then Some(next)
      else if 2 <= |rest| && rest[..2] == ", " then DecodeParts(rest[2..], next, item.noun.Rank() + 1)
      else None
  }

  /** Reads a status line back into the counts it reports. */
  function DecodeStatus(s: string): Option<Counts> {
    if s == NoDetections then Some(Counts(0, 0, 0))
    else if EndsWith(s, DetectedSuffix) then DecodeParts(s[..|s| - |DetectedSuffix|], Counts(0, 0, 0), 0)
    else None
  }

  lemma {:induction false} SpanDigitsPrefix(digits: string, rest: string)
    requires AllDigits(digits)
    requires 0 < |rest| && !IsDigit(rest[0])
    ensures SpanDigits(digits + rest) == |digits|
    decreases |digits|
  {
    if |digits| > 0 {
      assert (digits + rest)[1..] == digits[1..] + rest;
      SpanDigitsPrefix(digits[1..], rest);
    } else {
      assert digits + rest == rest;
    }
  }

  lemma DecodeCounted(count: nat, t: string)
    requires count > 0
    ensures DecodePart(NatToString(count) + " " + t) == DecodeNoun(count, t)
  {
    var digits := NatToString(count);
    var s := digits + " " + t;
    assert s == digits + (" " + t);
    SpanDigitsPrefix(digits, " " + t);
    assert s[..|digits|] == digits;
    assert s[|digits| + 1..] == t;
    ParseNatToString(count);
  }

  lemma DecodeWord(count: nat, noun: Noun, tail: string)
    requires count > 0
    ensures DecodeNoun(count, Word(noun) + (if count > 1 then "s" else "") + tail) == Some((Item(count, noun), tail))
  {
    var w := Word(noun);
    var pl := if count > 1 then "s" else "";
    var t := w + pl + tail;
    assert t[..|w|] == w;
    assert t[|w|..] == pl + tail;
    if count > 1 {
      assert (pl + tail)[1..] == tail;
    }
  }

  /** One rendered part is read back, followed by the same tail. */
  lemma DecodeRenderedPart(count: nat, noun: Noun, tail: string)
    requires count > 0
    ensures DecodePart(Part(count, noun) + tail) == Some((Item(count, noun), tail))
  {
    var pl := if count > 1 then "s" else "";
    assert Part(count, noun) + tail == NatToString(count) + " " + (Word(noun) + pl + tail);
    DecodeCounted(count, Word(noun) + pl + tail);
    DecodeWord(count, noun, tail);
  }

  function ApplyAll(acc: Counts, items: seq<Item>): Counts
    decreases |items|
  {
    if |items| == 0 then acc else ApplyAll(Record(acc, items[0]), items[1..])
  }

  /** A last part in order is read into the counts. */
  lemma DecodeLastPart(item: Item, acc: Counts, floor: nat)
    requires item.count > 0 && floor <= item.noun.Rank()
    ensures DecodeParts(Part(item.count, item.noun), acc, floor) == Some(Record(acc, item))
  {
    assert Part(item.count, item.noun) + "" == Part(item.count, item.noun);
    DecodeRenderedPart(item.count, item.noun, "");
  }

  /** A part in order followed by ", " is read into the counts, and the
      rest is read with a floor above its category. */
  lemma DecodeNextPart(item: Item, t: string, acc: Counts, floor: nat)
    requires item.count > 0 && floor <= item.noun.Rank()
    ensures DecodeParts(Part(item.count, item.noun) + ", " + t, acc, floor)
            == DecodeParts(t, Record(acc, item), item.noun.Rank() + 1)
  {
    var rest := ", " + t;
    assert Part(item.count, item.noun) + ", " + t == Part(item.count, item.noun) + rest;
    DecodeRenderedPart(item.count, item.noun, rest);
    assert rest[..2] == ", " && rest[2..] == t;
  }

  lemma {:induction false} DecodeJoined(items: seq<Item>, acc: Counts, floor: nat)
    requires Positive(items) && Ascending(items) && 0 < |items|
    requires floor <= items[0].noun.Rank()
    ensures DecodeParts(Join(Render(items), ", "), acc, floor) == Some(ApplyAll(acc, items))
    decreases |items|
  {
    var parts := Render(items);
    var first := items[0];
    if |items| == 1 {
      DecodeLastPart(first, acc, floor);
      assert ApplyAll(Record(acc, first), items[1..]) == Record(acc, first);
    } else {
      var rest := items[1..];
      assert Positive(rest) && Ascending(rest);
      assert first.noun.Rank() < rest[0].noun.Rank();
      assert Render(rest) == parts[1..];
      DecodeNextPart(first, Join(Render(rest), ", "), acc, floor);
      DecodeJoined(rest, Record(acc, first), first.noun.Rank() + 1);
    }
  }

  /** A part followed by one of the same or an earlier category is
      refused, whatever follows: the decoder accepts only the order the
      line is written in. */
  lemma OutOfOrderRefused(a: Item, b: Item, tail: string, acc: Counts, floor: nat)
    requires a.count > 0 && b.count > 0 && b.noun.Rank() <= a.noun.Rank()
    ensures DecodeParts(Part(a.count, a.noun) + ", " + Part(b.count, b.noun) + tail, acc, floor).None?
  {
    if floor <= a.noun.Rank() {
      var t := Part(b.count, b.noun) + tail;
      assert Part(a.count, a.noun) + ", " + Part(b.count, b.noun) + tail == Part(a.count, a.noun) + ", " + t;
      DecodeNextPart(a, t, acc, floor);
      DecodeRenderedPart(b.count, b.noun, tail);
    } else {
      var rest := ", " + (Part(b.count, b.noun) + tail);
      assert Part(a.count, a.noun) + ", " + Part(b.count, b.noun) + tail == Part(a.count, a.noun) + rest;
      DecodeRenderedPart(a.count, a.noun, rest);
    }
  }

  /** In particular a line listing two categories out of order, or one
      category twice, is not a status line the screen writes. */
  lemma OutOfOrderStatusRefused(a: Item, b: Item)
    requires a.count > 0 && b.count > 0 && b.noun.Rank() <= a.noun.Rank()
    ensures DecodeStatus(Part(a.count, a.noun) + ", " + Part(b.count, b.noun) + DetectedSuffix).None?
  {
    var body := Part(a.count, a.noun) + ", " + Part(b.count, b.noun);
    var s := body + DetectedSuffix;
    assert s[0] == NatToString(a.count)[0];
    StripSuffix(body, DetectedSuffix);
    OutOfOrderRefused(a, b, "", Counts(0, 0, 0), 0);
    assert body + "" == body;
  }

  /** The status line determines the counts: decoding it gives the
      object and sign counts and the person count (0 when not positive). */
  lemma StatusRoundTrip(objects: nat, persons: int, signs: nat)
    ensures DecodeStatus(DetectionStatus(objects, persons, signs))
            == Some(Counts(objects, if persons > 0 then persons else 0, signs))
  {
    var items := Items(objects, persons, signs);
    var s := DetectionStatus(objects, persons, signs);
    var want := Counts(objects, if persons > 0 then persons else 0, signs);
    if |items| > 0 {
      var body := Join(Render(items), ", ");
      assert s == body + DetectedSuffix;
      assert s[..|s| - |DetectedSuffix|] == body;
      DecodeJoined(items, Counts(0, 0, 0), 0);
      var os := if objects > 0 then [Item(objects, Object)] else [];
      var ps := if persons > 0 then [Item(persons, Person)] else [];
      var ss := if signs > 0 then [Item(signs, Sign)] else [];
      assert items == os + ps + ss;
      ApplyConcat(Counts(0, 0, 0), os, ps + ss);
      ApplyConcat(ApplyAll(Counts(0, 0, 0), os), ps, ss);
      assert ApplyAll(Counts(0, 0, 0), items) == want;
    }
  }

  lemma {:induction false} ApplyConcat(acc: Counts, a: seq<Item>, b: seq<Item>)
    ensures ApplyAll(acc, a + b) == ApplyAll(ApplyAll(acc, a), b)
    decreases |a|
  {
    if |a| > 0 {
      assert (a + b)[1..] == a[1..] + b;
      ApplyConcat(Record(acc, a[0]), a[1..], b);
    } else {
      assert a + b == b;
    }
  }

  /** Two parts joined. */
  lemma JoinTwo(a: string, b: string, sep: string)
    ensures Join([a, b], sep) == a + sep + b
  {
    assert [a, b][1..] == [b];
  }

  /** The line for two objects, no person and one sign. */
  lemma TwoObjectsOneSign()
    ensures DetectionStatus(2, 0, 1) == "2 objects, 1 sign detected"
  {
    var items := [Item(2, Object), Item(1, Sign)];
    assert Items(2, 0, 1) == items;
    TwoObjectsOneSignParts();
    var parts := Render(items);
    assert parts == ["2 objects", "1 sign"];
    JoinTwo("2 objects", "1 sign", ", ");
    assert "2 objects" + ", " + "1 sign" + DetectedSuffix == "2 objects, 1 sign detected";
  }

  lemma TwoObjectsOneSignParts()
    ensures Part(2, Object) == "2 objects" && Part(1, Sign) == "1 sign"
  {
    assert NatToString(2) == "2" && NatToString(1) == "1";
  }

  /** A rendered integer starts with '-' or a digit and ends in a
      digit. */
  lemma IntTextEnds(i: int)
    ensures var t := IntToString(i);
      (t[0] == '-' || IsDigit(t[0])) && IsDigit(t[|t| - 1])
  {
    var t := IntToString(i);
    var d := NatToString(if i < 0 then -i else i);
    assert t[|t| - 1] == d[|d| - 1];
  }

  /** The person screen's status: nothing found when the count is
      missing or 0, otherwise the count with "person" pluralised above 1. */
  function PersonStatus(count: Option<int>): (s: string)
    ensures s == "No people detected" <==> count.None? || count.value == 0
    ensures count == Some(1) ==> s == "1 person detected"
    ensures count.Some? && count.value > 1 ==> s == NatToString(count.value) + " persons detected"
    ensures count.Some? && count.value < 0 ==> s == IntToString(count.value) + " person detected"
  {
    if count.None? || count.value == 0 then "No people detected"
    else
      var t := IntToString(count.value);
      IntTextEnds(count.value);
      var s := t + (if count.value > 1 then " persons detected" else " person detected");
      assert s[0] == t[0];
      s
  }

  /** Reads a person status line back into the count. */
  function DecodePersonStatus(s: string): Option<int> {
    if s == "No people detected" then Some(0)
    else if EndsWith(s, " persons detected") then
      var n := s[..|s| - |" persons detected"|];
      if IsIntText(n) then Some(ParseInt(n)) else None
    else if EndsWith(s, " person detected") then
      var n := s[..|s| - |" person detected"|];
      if IsIntText(n) then Some(ParseInt(n)) else None
    else None
  }

  /** A text followed by a suffix ends with it, and dropping the suffix
      gives the text back. */
  lemma StripSuffix(a: string, b: string)
    ensures EndsWith(a + b, b) && (a + b)[..|a + b| - |b|] == a
  {
    assert (a + b)[|a|..] == b;
  }

  /** A text ending in a digit followed by " person detected" does not
      end in " persons detected". */
  lemma SingularNotPlural(digits: string)
    requires 0 < |digits| && IsDigit(digits[|digits| - 1])
    ensures !EndsWith(digits + " person detected", " persons detected")
  {
    var s := digits + " person detected";
    var p := " persons detected";
    assert |s| - |p| == |digits| - 1;
    assert s[|digits| - 1] == digits[|digits| - 1];
    if |p| <= |s| {
      assert s[|s| - |p|..][0] != p[0];
    }
  }

  lemma PersonStatusRoundTrip(count: Option<int>)
    ensures DecodePersonStatus(PersonStatus(count)) == Some(count.GetOr(0))
  {
    if count.Some? && count.value != 0 {
      var c := count.value;
      var digits := IntToString(c);
      ParseIntToString(c);
      if c > 1 {
        StripSuffix(digits, " persons detected");
      } else {
        IntTextEnds(c);
        SingularNotPlural(digits);
        StripSuffix(digits, " person detected");
      }
    }
  }
}
