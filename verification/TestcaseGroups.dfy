/** Test groups of exact sizes from the points they should give. */
module TestcaseGroups {
  datatype Error =
    | InvalidPoints
    | NoTests
    | NotDivisible(index: nat, count: int, point: nat, total: nat)
    | TooManyRows(limit: int)

  datatype Result<T> = Ok(value: T) | Err(error: Error)

  datatype Group = Group(points: nat, count: nat)

  // What a regular expression's \s and trim() take for a blank.
  predicate IsSpace(c: char) {
    || c == ' ' || '\t' <= c <= '\r' || c == '\U{a0}' || c == '\U{1680}' || '\U{2000}' <= c <= '\U{200a}'
    || c == '\U{2028}' || c == '\U{2029}' || c == '\U{202f}' || c == '\U{205f}' || c == '\U{3000}' || c == '\U{feff}'
  }

  // Number.MAX_SAFE_INTEGER.
  const MAX_SAFE_INTEGER: int := 9007199254740991

  predicate IsCount(count: int) {
    1 <= count <= MAX_SAFE_INTEGER
  }

  // The words of a text.
  function Words(raw: string, word: string): (r: seq<string>)
    ensures forall w :: w in r ==> w != ""
  {
    if raw == "" then (if word == "" then [] else [word])
    else if IsSpace(raw[0]) then (if word == "" then [] else [word]) + Words(raw[1..], "")
    else Words(raw[1..], word + [raw[0]])
  }

  predicate AllDigits(word: string) {
    forall i :: 0 <= i < |word| ==> '0' <= word[i] <= '9'
  }

  function Value(digits: string): nat
    requires AllDigits(digits)
  {
    if digits == "" then 0 else Value(digits[..|digits| - 1]) * 10 + (digits[|digits| - 1] as int - 48)
  }

  function Word(word: string): seq<string> {
    if word == "" then [] else [word]
  }

  /** A word ends at the first blank, or with the text, and the rest is read afresh. */
  lemma {:induction false} WordEnds(before: string, word: string, rest: string)
    requires forall i :: 0 <= i < |word| ==> !IsSpace(word[i])
    ensures rest == "" || IsSpace(rest[0]) ==>
              Words(word + rest, before) == Word(before + word) + if rest == "" then [] else Words(rest[1..], "")
    decreases word
  {
    if word == "" {
      assert word + rest == rest && before + word == before;
    } else {
      WordEnds(before + [word[0]], word[1..], rest);
      assert (word + rest)[1..] == word[1..] + rest && before + [word[0]] + word[1..] == before + word;
    }
  }

  // Words with one blank after each.
  function Line(words: seq<string>, blank: char): string {
    if words == [] then "" else words[0] + [blank] + Line(words[1..], blank)
  }

  /** What is written in words is read as these words. */
  lemma {:induction false} LineRead(words: seq<string>, blank: char)
    requires IsSpace(blank)
    requires forall w :: w in words ==> w != "" && forall i :: 0 <= i < |w| ==> !IsSpace(w[i])
    ensures Words(Line(words, blank), "") == words
  {
    if words != [] {
      var rest := [blank] + Line(words[1..], blank);
      LineRead(words[1..], blank);
      assert words[0] in words && words[0] + [blank] + Line(words[1..], blank) == words[0] + rest;
      WordEnds("", words[0], rest);
      assert rest[1..] == Line(words[1..], blank) && "" + words[0] == words[0];
    }
  }

  // A number as it is written.
  function Decimal(n: nat): string {
    if n < 10 then ['0' + n as char] else Decimal(n / 10) + ['0' + (n % 10) as char]
  }

  /** A written number is read as that number, with any zeros in front. */
  lemma {:induction false} DecimalRead(n: nat)
    ensures AllDigits(Decimal(n)) && Value(Decimal(n)) == n
    ensures AllDigits("0" + Decimal(n)) && Value("0" + Decimal(n)) == n
  {
    if n >= 10 {
      DecimalRead(n / 10);
      assert ("0" + Decimal(n))[..|Decimal(n)|] == "0" + Decimal(n / 10);
    } else {
      assert ("0" + Decimal(n))[..1] == "0";
      assert Value("0") == 0;
    }
  }

  predicate IsPoints(word: string) {
    AllDigits(word) && 1 <= Value(word) <= 2147483647
  }

  predicate AllPoints(words: seq<string>) {
    forall i :: 0 <= i < |words| ==> IsPoints(words[i])
  }

  function PointsOf(words: seq<string>): (r: seq<nat>)
    requires AllPoints(words)
    ensures |r| == |words| && forall i :: 0 <= i < |r| ==> IsPoints(words[i]) && r[i] == Value(words[i])
  {
    if words == [] then []
    else [Value(words[0])] + PointsOf(words[1..])
  }

  function Sum(points: seq<nat>): nat {
    if points == [] then 0 else points[0] + Sum(points[1..])
  }

  // The shares of the points from position `index` on, or the first that is not a whole number.
  function Shares(points: seq<nat>, index: nat, count: int, total: nat): Result<seq<Group>>
    requires total > 0 && index <= |points| && count >= 1
    decreases |points| - index
  {
    if index == |points| then Ok([])
    else if count * points[index] % total != 0 then Err(NotDivisible(index + 1, count, points[index], total))
    else match Shares(points, index + 1, count, total)
      case Ok(rest) => Ok([Group(points[index], Share(count, points[index], total))] + rest)
      case Err(error) => Err(error)
  }

  function Share(count: int, point: nat, total: nat): nat
    requires total > 0 && count >= 1
  {
    count * point / total
  }

  function PlanTestcaseGroups(raw: string, count: int, rowLimit: int): Result<seq<Group>> {
    var words := Words(raw, "");
    if words == [] then Ok([])
    else if !AllPoints(words) then Err(InvalidPoints)
    else if !IsCount(count) then Err(NoTests)
    else
      var points := PointsOf(words);
      SumIsPositive(points);
      match Shares(points, 0, count, Sum(points))
      case Err(error) => Err(error)
      case Ok(groups) => if count + |groups| * 2 > rowLimit then Err(TooManyRows(rowLimit)) else Ok(groups)
  }

  lemma SumIsPositive(points: seq<nat>)
    requires points != [] && points[0] >= 1
    ensures Sum(points) > 0
  {
  }

  // The groups give the points in order, each its exact share of the tests and at least one of them.
  ghost predicate Exact(points: seq<nat>, groups: seq<Group>, index: nat, count: int, total: nat)
    requires index <= |points|
  {
    && |groups| == |points| - index
    && forall i :: 0 <= i < |groups| ==>
         var g := groups[i];
         g.points == points[index + i] && Times(g.count, total) == Times(count, g.points) && g.count >= 1
  }

  function Times(x: int, y: int): int {
    x * y
  }

  function SumCounts(groups: seq<Group>): nat {
    if groups == [] then 0 else groups[0].count + SumCounts(groups[1..])
  }

  lemma ShareIsExact(count: int, point: nat, total: nat)
    requires total > 0 && count >= 1 && point >= 1 && count * point % total == 0
    ensures Times(Share(count, point, total), total) == Times(count, point) && Share(count, point, total) >= 1
  {
    var q := count * point / total;
    assert count * point == q * total;
    assert count * point >= 1;
  }

  lemma {:induction false} SharesExact(points: seq<nat>, index: nat, count: int, total: nat)
    requires total > 0 && index <= |points| && count >= 1 && forall i :: 0 <= i < |points| ==> points[i] >= 1
    ensures match Shares(points, index, count, total)
            case Ok(groups) =>
              && Exact(points, groups, index, count, total)
              && Times(SumCounts(groups), total) == Times(count, Sum(points[index..]))
              && forall i :: index <= i < |points| ==> Times(count, points[i]) % total == 0
            case Err(NotDivisible(k, c, p, t)) =>
              && index < k <= |points| && c == count && p == points[k - 1] && t == total && Times(count, p) % total != 0
              && forall i :: index <= i < k - 1 ==> Times(count, points[i]) % total == 0
            case Err(_) => false
    decreases |points| - index
  {
    if index < |points| && count * points[index] % total == 0 {
      SharesExact(points, index + 1, count, total);
      ShareIsExact(count, points[index], total);
      var rest := points[index..];
      assert rest[1..] == points[index + 1..];
      if Shares(points, index + 1, count, total).Ok? {
        var more := Shares(points, index + 1, count, total).value;
        var group := Group(points[index], Share(count, points[index], total));
        assert ([group] + more)[1..] == more;
        Distribute(group.count, SumCounts(more), total);
        Distribute(points[index], Sum(points[index + 1..]), count);
      }
    }
  }

  lemma Distribute(x: int, y: int, z: int)
    ensures Times(x + y, z) == Times(x, z) + Times(y, z) && Times(z, x + y) == Times(z, x) + Times(z, y)
  {
  }

  // Only blanks.
  predicate IsBlank(raw: string) {
    forall i :: 0 <= i < |raw| ==> IsSpace(raw[i])
  }

  lemma {:induction false} BlankHasNoWords(raw: string, word: string)
    ensures Words(raw, word) == [] <==> word == "" && IsBlank(raw)
  {
    if raw != "" {
      assert IsBlank(raw) <==> IsSpace(raw[0]) && IsBlank(raw[1..]) by {
        assert forall i :: 1 <= i < |raw| ==> raw[1..][i - 1] == raw[i];
      }
      if IsSpace(raw[0]) {
        BlankHasNoWords(raw[1..], "");
      } else {
        BlankHasNoWords(raw[1..], word + [raw[0]]);
      }
    }
  }

  /** Blank input gives no groups. */
  lemma BlankPlan(raw: string, count: int, rowLimit: int)
    ensures PlanTestcaseGroups(raw, count, rowLimit) == Ok([]) <==> IsBlank(raw)
  {
    BlankHasNoWords(raw, "");
    PlanIsExact(raw, count, rowLimit);
  }

  /** A plan loses no test and rounds nothing: the groups have exactly the tests, each in exact proportion to its
      points. */
  lemma PlanIsExact(raw: string, count: int, rowLimit: int)
    ensures var words := Words(raw, "");
            match PlanTestcaseGroups(raw, count, rowLimit)
            case Ok(groups) =>
              if words == [] then groups == []
              else
                && AllPoints(words) && IsCount(count) && count + |groups| * 2 <= rowLimit
                && Exact(PointsOf(words), groups, 0, count, Sum(PointsOf(words))) && SumCounts(groups) == count
            case Err(InvalidPoints) => words != [] && !AllPoints(words)
            case Err(NoTests) => words != [] && AllPoints(words) && !IsCount(count)
            case Err(_) => words != [] && AllPoints(words) && IsCount(count)
  {
    var words := Words(raw, "");
    if words != [] && AllPoints(words) && IsCount(count) {
      var points := PointsOf(words);
      SumIsPositive(points);
      SharesExact(points, 0, count, Sum(points));
      assert points[0..] == points;
      if Shares(points, 0, count, Sum(points)).Ok? {
        Cancel(SumCounts(Shares(points, 0, count, Sum(points)).value), count, Sum(points));
      }
    }
  }

  lemma Cancel(x: int, y: int, z: int)
    requires Times(x, z) == Times(y, z) && z > 0
    ensures x == y
  {
  }

  ghost predicate SomeShareIsBroken(points: seq<nat>, count: int) {
    Sum(points) > 0 && exists i :: 0 <= i < |points| && Times(count, points[i]) % Sum(points) != 0
  }

  lemma BrokenShare(points: seq<nat>, count: int)
    requires points != [] && count >= 1 && forall i :: 0 <= i < |points| ==> points[i] >= 1
    ensures Sum(points) > 0
    ensures Shares(points, 0, count, Sum(points)).Err? <==> SomeShareIsBroken(points, count)
    ensures Shares(points, 0, count, Sum(points)).Err? ==> Shares(points, 0, count, Sum(points)).error.NotDivisible?
  {
    SumIsPositive(points);
    SharesExact(points, 0, count, Sum(points));
    match Shares(points, 0, count, Sum(points))
    case Err(NotDivisible(k, _, _, _)) =>
      assert Times(count, points[k - 1]) % Sum(points) != 0;
    case _ =>
  }

  /** It is refused as not divisible exactly when the points are valid, there are tests, and some share is no whole
      number. */
  lemma RefusedAsNotDivisible(raw: string, count: int, rowLimit: int)
    ensures var words := Words(raw, "");
            var r := PlanTestcaseGroups(raw, count, rowLimit);
            (r.Err? && r.error.NotDivisible?) <==>
            words != [] && AllPoints(words) && IsCount(count) && SomeShareIsBroken(PointsOf(words), count)
  {
    var words := Words(raw, "");
    if words != [] && AllPoints(words) && IsCount(count) {
      BrokenShare(PointsOf(words), count);
    }
  }
}
