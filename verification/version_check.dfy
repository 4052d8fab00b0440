/**
 * The build classifier of the older revision's version fetcher: the ids in
 * the fetched dev-build and release lists, and the verdict (stable, dev or
 * unknown) with the number of builds the running one is behind. The HTTP
 * fetch itself is an input: it failed, produced no array, or produced the
 * array's elements as parsed JSON.
 */
module VersionCheck {
  import opened Wrappers
  import opened JavaInt

  /** A parsed JSON element. Numbers are integers, spelled in plain decimal. */
  datatype Json =
    | JNumber(n: int)
    | JString(s: string)
    | JBool(b: bool)
    | JNull
    | JArray(items: seq<Json>)
    | JObject(fields: map<string, Json>)

  /** `DISTANCE_ERROR` and `DISTANCE_UNKNOWN`. */
  const DistanceError: int := -1
  const DistanceUnknown: int := -2

  /** The id `extractId` reports for an element it cannot read. */
  const NoId: int := -1

  // ---------------------------------------------------------------------------
  // Decimal text

  predicate IsDigit(c: char) {
    '0' <= c <= '9'
  }

  function DigitValue(c: char): nat
    requires IsDigit(c)
  {
    c as int - '0' as int
  }

  function DigitChar(d: nat): (c: char)
    requires d < 10
    ensures IsDigit(c) && DigitValue(c) == d
  {
    ('0' as int + d) as char
  }

  predicate AllDigits(s: string) {
    forall i | 0 <= i < |s| :: IsDigit(s[i])
  }

  /** The number a run of digits spells, most significant first. */
  function DigitsValue(s: string): nat
    requires AllDigits(s)
    decreases |s|
  {
    if s == [] then 0 else DigitsValue(s[..|s| - 1]) * 10 + DigitValue(s[|s| - 1])
  }

  /** The shortest run of digits spelling `n`. */
  function Digits(n: nat): (s: string)
    ensures AllDigits(s) && s != []
    decreases n
  {
    if n < 10 then [DigitChar(n)] else Digits(n / 10) + [DigitChar(n % 10)]
  }

  /** `Integer.toString`: an optional minus sign, then the digits of the magnitude. */
  function Decimal(n: int): string {
    if n < 0 then ['-'] + Digits(-n) else Digits(n)
  }

  /**
   * `Integer.parseInt`: an optional sign, at least one digit, and a value
   * in the int range; anything else is a NumberFormatException (None).
   */
  function ParseInt(s: string): Option<Int32> {
    var negative := |s| > 0 && s[0] == '-';
    var body := if |s| > 0 && (s[0] == '-' || s[0] == '+') then s[1..] else s;
    if body == [] || !AllDigits(body) then None
    else
      var v := if negative then -(DigitsValue(body) as int) else DigitsValue(body) as int;
      if -0x8000_0000 <= v < 0x8000_0000 then Some(v) else None
  }

  lemma {:induction false} DigitsRoundTrip(n: nat)
    ensures DigitsValue(Digits(n)) == n
    decreases n
  {
    if n >= 10 {
      var s := Digits(n);
      DigitsRoundTrip(n / 10);
      assert s[..|s| - 1] == Digits(n / 10);
    }
  }

  /** Every int's decimal text parses back to it. */
  lemma ParseDecimal(i: Int32)
    ensures ParseInt(Decimal(i)) == Some(i)
  {
    if i < 0 {
      DigitsRoundTrip(-(i as int));
      assert (['-'] + Digits(-(i as int)))[1..] == Digits(-(i as int));
    } else {
      DigitsRoundTrip(i);
    }
  }

  /** Text spelling a value outside the int range does not parse. */
  lemma ParseRejectsOutOfRange(n: int)
    requires !(-0x8000_0000 <= n < 0x8000_0000)
    ensures ParseInt(Decimal(n)) == None
  {
    if n < 0 {
      DigitsRoundTrip(-n);
      assert (['-'] + Digits(-n))[1..] == Digits(-n);
    } else {
      DigitsRoundTrip(n);
    }
  }

  // ---------------------------------------------------------------------------
  // Reading one element

  /** How a read ends: a value, a NumberFormatException, or another exception that escapes `extractId`. */
  datatype Read<T> = Value(v: T) | BadNumber | Escapes

  /** `getAsString`: primitives print themselves; a one-element array reads its element; the rest throw. */
  function AsString(j: Json): (r: Read<string>)
    ensures !r.BadNumber?
    decreases j
  {
    match j
    case JNumber(n) => Value(Decimal(n))
    case JString(s) => Value(s)
    case JBool(b) => Value(if b then "true" else "false")
    case JArray(items) => if |items| == 1 then AsString(items[0]) else Escapes
    case _ => Escapes
  }

  /**
   * `getAsInt`: a number keeps the low 32 bits of its value, text is
   * parsed, a boolean is a NumberFormatException, a one-element array
   * reads its element; null and objects throw.
   */
  function AsInt(j: Json): (r: Read<Int32>)
    ensures j.JNumber? ==> r == Value(Wrap(j.n))
    ensures j.JString? ==> (r.Value? <==> ParseInt(j.s).Some?)
    ensures j.JString? && ParseInt(j.s).Some? ==> r.v == ParseInt(j.s).value
    ensures (j.JNull? || j.JObject?) ==> r == Escapes
    decreases j
  {
    match j
    case JNumber(n) => Value(Wrap(n))
    case JString(s) => (match ParseInt(s) case Some(v) => Value(v) case None => BadNumber)
    case JBool(_) => BadNumber
    case JArray(items) => if |items| == 1 then AsInt(items[0]) else Escapes
    case _ => Escapes
  }

  /** The outcome of `extractId`: an id (possibly `NoId`) or an exception it lets through. */
  datatype Extracted = Id(id: Int32) | Thrown

  function Caught(r: Read<Int32>): Extracted {
    match r
    case Value(v) => Id(v)
    case BadNumber => Id(NoId)
    case Escapes => Thrown
  }

  predicate InInt(n: int) {
    -0x8000_0000 <= n < 0x8000_0000
  }

  /** The decimal text of a number parses back to it exactly when it is in the int range. */
  lemma DecimalsRead()
    ensures forall n :: ParseInt(Decimal(n)) == (if InInt(n) then Some(n) else None)
  {
    forall n
      ensures ParseInt(Decimal(n)) == (if InInt(n) then Some(n) else None)
    {
      if InInt(n) { ParseDecimal(n); } else { ParseRejectsOutOfRange(n); }
    }
  }

  /**
   * `extractId`: an object's `build_id` read as text and parsed, else its
   * `id` read as an int; a bare primitive read as an int; anything else, or
   * a NumberFormatException, is `NoId`. Only an object can make it throw.
   */
  function ExtractId(el: Json): (r: Extracted)
    ensures r.Thrown? ==> el.JObject?
    // With a `build_id`, it alone decides: a number is its id when it fits an int,
    // text is parsed, a boolean is no id, and null or an object throws.
    ensures el.JObject? && "build_id" in el.fields && el.fields["build_id"].JNumber? ==>
      var n := el.fields["build_id"].n;
      r == Id(if InInt(n) then n else NoId)
    ensures el.JObject? && "build_id" in el.fields && el.fields["build_id"].JString? ==>
      r == Id(ParseInt(el.fields["build_id"].s).GetOr(NoId))
    ensures el.JObject? && "build_id" in el.fields && el.fields["build_id"].JBool? ==> r == Id(NoId)
    ensures el.JObject? && "build_id" in el.fields && (el.fields["build_id"].JNull? || el.fields["build_id"].JObject?) ==>
      r == Thrown
    // Without one, `id` decides: a number keeps its low 32 bits, text is parsed,
    // a boolean is no id, and null or an object throws.
    ensures el.JObject? && "build_id" !in el.fields && "id" in el.fields && el.fields["id"].JNumber? ==>
      r == Id(Wrap(el.fields["id"].n))
    ensures el.JObject? && "build_id" !in el.fields && "id" in el.fields && el.fields["id"].JString? ==>
      r == Id(ParseInt(el.fields["id"].s).GetOr(NoId))
    ensures el.JObject? && "build_id" !in el.fields && "id" in el.fields && el.fields["id"].JBool? ==> r == Id(NoId)
    ensures el.JObject? && "build_id" !in el.fields && "id" in el.fields && (el.fields["id"].JNull? || el.fields["id"].JObject?) ==>
      r == Thrown
    ensures el.JObject? && "build_id" !in el.fields && "id" !in el.fields ==> r == Id(NoId)
    // A bare element: a number keeps its low 32 bits, text is parsed, anything else is no id.
    ensures el.JNumber? ==> r == Id(Wrap(el.n))
    ensures el.JString? ==> r == Id(ParseInt(el.s).GetOr(NoId))
    ensures el.JBool? || el.JNull? || el.JArray? ==> r == Id(NoId)
  {
    DecimalsRead();
    match el
    case JObject(f) =>
      if "build_id" in f then
        match AsString(f["build_id"])
        case Value(s) => Id(ParseInt(s).GetOr(NoId))
        case _ => Thrown
      else if "id" in f then Caught(AsInt(f["id"]))
      else Id(NoId)
    case JNumber(_) => Caught(AsInt(el))
    case JString(_) => Caught(AsInt(el))
    case JBool(_) => Caught(AsInt(el))
    case _ => Id(NoId)
  }

  /** With a `build_id`, the `id` field is never consulted. */
  lemma BuildIdPreferred(f: map<string, Json>, other: Json)
    requires "build_id" in f
    ensures ExtractId(JObject(f["id" := other])) == ExtractId(JObject(f))
  {
  }

  /** The two keys read an out-of-range number differently: `build_id` rejects it, `id` keeps its low 32 bits. */
  lemma BuildIdAndIdDisagree()
    ensures ExtractId(JObject(map["build_id" := JNumber(0x1_0000_0005)])) == Id(NoId)
    ensures ExtractId(JObject(map["id" := JNumber(0x1_0000_0005)])) == Id(5)
  {
    ParseRejectsOutOfRange(0x1_0000_0005);
  }

  /** A numeric `build_id` within the int range is the id. */
  lemma NumericBuildId(i: Int32)
    ensures ExtractId(JObject(map["build_id" := JNumber(i)])) == Id(i)
  {
    ParseDecimal(i);
  }

  // ---------------------------------------------------------------------------
  // Collecting the ids of one list

  /** What `fetchJsonArray` produced: an exception, null, or the elements of `data`. */
  datatype Fetched = FetchFailed | NoArray | Array(items: seq<Json>)

  /** The ids gathered so far, their running maximum (starting at -1), and whether an exception cut the loop short. */
  datatype Scan = Scan(ids: set<Int32>, max: Int32, thrown: bool)

  /** The loop over one list: every id other than `NoId` joins the set and the maximum. */
  function Collect(items: seq<Json>, acc: Scan): (r: Scan)
    requires !acc.thrown
    decreases |items|
  {
    if items == [] then acc
    else
      match ExtractId(items[0])
      case Thrown => acc.(thrown := true)
      case Id(i) =>
        if i != NoId then Collect(items[1..], Scan(acc.ids + {i}, if i > acc.max then i else acc.max, false))
        else Collect(items[1..], acc)
  }

  /** The position of the first element whose read throws, or `|items|`. */
  function FirstThrow(items: seq<Json>): (k: nat)
    ensures k <= |items|
    ensures forall j | 0 <= j < k :: ExtractId(items[j]).Id?
    ensures k < |items| ==> ExtractId(items[k]).Thrown?
    decreases |items|
  {
    if items == [] || ExtractId(items[0]).Thrown? then 0 else 1 + FirstThrow(items[1..])
  }

  /** The ids, other than `NoId`, of the elements before position `k`. */
  function IdsBefore(items: seq<Json>, k: nat): set<Int32>
    requires k <= |items|
  {
    set j | 0 <= j < k && ExtractId(items[j]).Id? && ExtractId(items[j]).id != NoId :: ExtractId(items[j]).id
  }

  /** The running maximum starting from -1 is the greatest of -1 and every id gathered. */
  predicate IsRunningMax(m: int, ids: set<Int32>) {
    m >= -1 && (forall i | i in ids :: i <= m) && (m == -1 || m in ids)
  }

  lemma {:induction false} CollectSpec(items: seq<Json>, acc: Scan)
    requires !acc.thrown && NoId !in acc.ids && IsRunningMax(acc.max, acc.ids)
    ensures var r := Collect(items, acc);
      && (r.thrown <==> FirstThrow(items) < |items|)
      && r.ids == acc.ids + IdsBefore(items, FirstThrow(items))
      && NoId !in r.ids
      && IsRunningMax(r.max, r.ids)
    decreases |items|
  {
    if items != [] {
      match ExtractId(items[0])
      case Thrown =>
        assert IdsBefore(items, 0) == {};
      case Id(i) =>
        var tail := items[1..];
        var next := if i != NoId then Scan(acc.ids + {i}, if i > acc.max then i else acc.max, false) else acc;
        CollectSpec(tail, next);
        var k := FirstThrow(tail);
        assert FirstThrow(items) == k + 1;
        IdsBeforeStep(items, k);
    }
  }

  /** Peeling the first element off the ids gathered before position `k + 1`. */
  lemma IdsBeforeStep(items: seq<Json>, k: nat)
    requires k + 1 <= |items| && ExtractId(items[0]).Id?
    ensures var i := ExtractId(items[0]).id;
      IdsBefore(items, k + 1) == (if i != NoId then {i} else {}) + IdsBefore(items[1..], k)
  {
    var tail := items[1..];
    var i := ExtractId(items[0]).id;
    var head := if i != NoId then {i} else {};
    forall x | x in IdsBefore(items, k + 1) ensures x in head + IdsBefore(tail, k) {
      var j :| 0 <= j < k + 1 && ExtractId(items[j]).Id? && ExtractId(items[j]).id != NoId && ExtractId(items[j]).id == x;
      if j > 0 {
        assert items[j] == tail[j - 1];
      }
    }
    forall x | x in head + IdsBefore(tail, k) ensures x in IdsBefore(items, k + 1) {
      if x !in head {
        var j :| 0 <= j < k && ExtractId(tail[j]).Id? && ExtractId(tail[j]).id != NoId && ExtractId(tail[j]).id == x;
        assert items[j + 1] == tail[j];
      }
    }
  }

  /** Gathering one fetched list; a failed fetch adds nothing and counts as thrown. */
  function Gather(f: Fetched): (r: Scan)
    ensures f.FetchFailed? ==> r == Scan({}, -1, true)
    ensures f.NoArray? ==> r == Scan({}, -1, false)
  {
    match f
    case FetchFailed => Scan({}, -1, true)
    case NoArray => Scan({}, -1, false)
    case Array(items) => Collect(items, Scan({}, -1, false))
  }

  /**
   * What a gathered list holds: the ids before the first element that
   * throws (all of them when none does), never `NoId`, with their maximum.
   */
  lemma GatherSpec(items: seq<Json>)
    ensures var r := Gather(Array(items));
      && (r.thrown <==> FirstThrow(items) < |items|)
      && r.ids == IdsBefore(items, FirstThrow(items))
      && NoId !in r.ids
      && IsRunningMax(r.max, r.ids)
  {
    CollectSpec(items, Scan({}, -1, false));
  }

  // ---------------------------------------------------------------------------
  // Classification

  datatype BuildType = Stable | Dev | Unknown

  /** `PulseVersionResult`. */
  datatype Verdict = Verdict(kind: BuildType, distance: Int32, current: Int32, latest: Int32)

  /** `(max > 0) ? (max - current) : 0`, in int arithmetic. */
  function Distance(max: Int32, current: Int32): Int32 {
    if max > 0 then Wrap(max - current) else 0
  }

  /**
   * `fetchPulseVersion`: without a build number nothing is fetched; a dev
   * list that throws is an error; a release list that throws keeps what it
   * gathered. Release membership is checked before dev membership.
   */
  function Classify(build: Option<Int32>, dev: Fetched, releases: Fetched): (r: Verdict)
    ensures build.None? ==> r == Verdict(Unknown, DistanceUnknown, -1, -1)
    ensures build.Some? && Gather(dev).thrown ==> r == Verdict(Unknown, DistanceError, build.value, -1)
    ensures r.kind == Stable ==> build.Some? && build.value in Gather(releases).ids && r.latest == Gather(releases).max
    ensures r.kind == Dev ==> build.Some? && build.value !in Gather(releases).ids && build.value in Gather(dev).ids
                              && r.latest == Gather(dev).max
    ensures r.kind != Unknown ==> r.distance == Distance(r.latest, r.current)
    ensures r.kind == Unknown ==> r.distance < 0
    ensures build.Some? ==> r.current == build.value
    ensures build.Some? && !Gather(dev).thrown && r.kind == Unknown ==> r.distance == DistanceUnknown && r.latest == -1
    ensures build.Some? && !Gather(dev).thrown ==>
      (r.kind == Unknown <==> build.value !in Gather(releases).ids && build.value !in Gather(dev).ids)
  {
    match build
    case None => Verdict(Unknown, DistanceUnknown, -1, -1)
    case Some(current) =>
      var d := Gather(dev);
      if d.thrown then Verdict(Unknown, DistanceError, current, -1)
      else
        var rel := Gather(releases);
        if current in rel.ids then Verdict(Stable, Distance(rel.max, current), current, rel.max)
        else if current in d.ids then Verdict(Dev, Distance(d.max, current), current, d.max)
        else Verdict(Unknown, DistanceUnknown, current, -1)
  }

  /** A gathered maximum is the running maximum of its ids, so it fits in an int. */
  lemma GatheredRunningMax(f: Fetched)
    ensures IsRunningMax(Gather(f).max, Gather(f).ids)
  {
    if f.Array? {
      GatherSpec(f.items);
    }
  }

  /** A failed release fetch counts as an empty release list. */
  lemma ReleaseFailureIgnored(build: Option<Int32>, dev: Fetched)
    ensures Classify(build, dev, FetchFailed) == Classify(build, dev, NoArray)
  {
  }

  /**
   * A non-negative running build classified STABLE or DEV is behind by a
   * non-negative distance: the latest build minus the running one, or 0
   * when the latest is not positive.
   */
  lemma DistanceNonNegative(build: Int32, dev: Fetched, releases: Fetched)
    requires build >= 0
    ensures var r := Classify(Some(build), dev, releases);
      r.kind != Unknown ==>
        && r.distance >= 0
        && r.latest >= build
        && r.distance == (if r.latest > 0 then r.latest - build else 0)
  {
    GatheredRunningMax(dev);
    GatheredRunningMax(releases);
  }

  /**
   * With a negative id the subtraction can overflow: a running build of -2
   * listed as a release next to build 2147483647 is reported as STABLE with
   * a negative distance.
   */
  lemma NegativeIdDistanceWraps()
    ensures var r := Classify(Some(-2), NoArray, Array([JNumber(0x7fff_ffff), JNumber(-2)]));
      r.kind == Stable && r.distance < 0
  {
    var items := [JNumber(0x7fff_ffff), JNumber(-2)];
    assert ExtractId(items[0]) == Id(0x7fff_ffff);
    assert ExtractId(items[1]) == Id(-2);
    var first := Scan({0x7fff_ffff}, 0x7fff_ffff, false);
    assert Collect(items, Scan({}, -1, false)) == Collect(items[1..], first);
    assert items[1..][0] == items[1] && items[1..][1..] == [];
    assert Collect(items[1..], first) == Scan({0x7fff_ffff, -2}, 0x7fff_ffff, false);
    assert Wrap(0x7fff_ffff - -2) == -0x7fff_ffff;
  }
}
