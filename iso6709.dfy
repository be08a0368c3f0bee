/** `ISO6709LocationParser.parse`: finds the leftmost match of
    `([+\-][0-9.]+)([+\-][0-9.]+)` in a location string in the text form of ISO 6709
    (latitude then longitude, each a sign and a decimal value), and returns the two groups
    when `Float.parseFloat` would accept both. The parsed floats are kept as their decimal
    strings. */
module Iso6709 {
  import opened Common

  predicate IsSign(c: char) {
    c == '+' || c == '-'
  }

  /** The character class `[0-9.]`. */
  predicate IsRunChar(c: char) {
    ('0' <= c <= '9') || c == '.'
  }

  /** The length of the longest run of `[0-9.]` starting at `i`: what a greedy `[0-9.]*`
      consumes there. */
  function RunLength(s: string, i: nat): (n: nat)
    requires i <= |s|
    ensures i + n <= |s|
    ensures forall k :: i <= k < i + n ==> IsRunChar(s[k])
    ensures i + n == |s| || !IsRunChar(s[i + n])
    decreases |s| - i
  {
    if i < |s| && IsRunChar(s[i]) then 1 + RunLength(s, i + 1) else 0
  }

  /** The two capture groups of a match: latitude, then longitude. */
  datatype Groups = Groups(latitude: string, longitude: string)

  /** The match of the pattern starting exactly at `i`, if any. The first group's run is
      maximal, since the character after it must be a sign, which `[0-9.]` excludes; the
      second group's run is maximal because `+` is greedy. */
  function MatchAt(s: string, i: nat): Option<Groups>
    requires i <= |s|
  {
    if i < |s| && IsSign(s[i]) then
      var n1 := RunLength(s, i + 1);
      var j := i + 1 + n1;
      if n1 > 0 && j < |s| && IsSign(s[j]) then
        var n2 := RunLength(s, j + 1);
        if n2 > 0 then Some(Groups(s[i..j], s[j..j + 1 + n2])) else None
      else None
    else None
  }

  /** A string the group `[+\-][0-9.]+` matches as a whole. */
  predicate IsGroup(g: string) {
    |g| >= 2 && IsSign(g[0]) && forall k :: 1 <= k < |g| ==> IsRunChar(g[k])
  }

  /** A match found at `i` consists of two groups that appear there back to back, and the
      second one cannot be extended. */
  lemma MatchAtSound(s: string, i: nat)
    requires i <= |s| && MatchAt(s, i).Some?
    ensures var g := MatchAt(s, i).value;
      var end := i + |g.latitude| + |g.longitude|;
      && IsGroup(g.latitude) && IsGroup(g.longitude)
      && end <= |s| && s[i..end] == g.latitude + g.longitude
      && (end == |s| || !IsRunChar(s[end]))
  {
    var n1 := RunLength(s, i + 1);
    var j := i + 1 + n1;
    var n2 := RunLength(s, j + 1);
    var g := MatchAt(s, i).value;
    assert g.latitude == s[i..j] && g.longitude == s[j..j + 1 + n2];
    assert s[i..j + 1 + n2] == s[i..j] + s[j..j + 1 + n2];
  }

  /** Two groups back to back at `i`, the second ending at `k` before a non-member of
      `[0-9.]`: the pattern matches at `i` with exactly these groups. */
  lemma MatchAtGroups(s: string, i: nat, j: nat, k: nat)
    requires i < j < k <= |s| && IsSign(s[i]) && IsSign(s[j]) && i + 1 < j && j + 1 < k
    requires forall m :: i < m < j ==> IsRunChar(s[m])
    requires forall m :: j < m < k ==> IsRunChar(s[m])
    requires k == |s| || !IsRunChar(s[k])
    ensures MatchAt(s, i) == Some(Groups(s[i..j], s[j..k]))
  {
    RunFromGroup(s, i + 1, j);
    RunFromGroup(s, j + 1, k);
  }

  /** Whenever two groups appear back to back at `i`, the pattern matches at `i`, with the
      same latitude group. */
  lemma MatchAtComplete(s: string, i: nat, latitude: string, longitude: string)
    requires IsGroup(latitude) && IsGroup(longitude)
    requires i + |latitude| + |longitude| <= |s|
    requires s[i..i + |latitude| + |longitude|] == latitude + longitude
    ensures MatchAt(s, i).Some? && MatchAt(s, i).value.latitude == latitude
  {
    var j := i + |latitude|;
    var both := s[i..i + |latitude| + |longitude|];
    assert s[i..j] == both[..|latitude|] == latitude;
    forall m | i + 1 <= m < j
      ensures IsRunChar(s[m])
    {
      assert s[m] == latitude[m - i];
    }
    assert s[j] == both[|latitude|] == longitude[0];
    RunFromGroup(s, i + 1, j);
    assert s[j + 1] == both[|latitude| + 1] == longitude[1];
  }

  /** A run of `[0-9.]` from `i` up to a non-member (or the end) at `j` is exactly the
      maximal run. */
  lemma {:induction false} RunFromGroup(s: string, i: nat, j: nat)
    requires i <= j <= |s| && (j == |s| || !IsRunChar(s[j]))
    requires forall k :: i <= k < j ==> IsRunChar(s[k])
    ensures RunLength(s, i) == j - i
    decreases j - i
  {
    if i < j {
      RunFromGroup(s, i + 1, j);
    }
  }

  /** `Matcher.find()` from `i`: the leftmost position at or after `i` where the pattern
      matches, with its groups. */
  function FindFrom(s: string, i: nat): (r: Option<(nat, Groups)>)
    requires i <= |s|
    ensures r.Some? ==>
      && i <= r.value.0 <= |s| && MatchAt(s, r.value.0) == Some(r.value.1)
      && forall k :: i <= k < r.value.0 ==> MatchAt(s, k).None?
    ensures r.None? ==> forall k :: i <= k <= |s| ==> MatchAt(s, k).None?
    decreases |s| - i
  {
    if MatchAt(s, i).Some? then Some((i, MatchAt(s, i).value))
    else if i == |s| then None
    else FindFrom(s, i + 1)
  }

  /** The number of '.' in `g`. */
  function DotCount(g: string): nat {
    multiset(g)['.']
  }

  /** Whether `Float.parseFloat` accepts a matched group: a sign and `[0-9.]+` form a
      decimal number exactly when the run holds a digit and at most one point. */
  predicate ValidDecimal(g: string) {
    && (exists k :: 1 <= k < |g| && '0' <= g[k] <= '9')
    && DotCount(g) <= 1
  }

  /** `parse(location)`: null for a null input, when nothing matches, or when either group
      of the leftmost match is not a number (no later match is tried); otherwise the
      latitude and longitude groups, in that order. */
  function Parse(location: Option<string>): (r: Option<seq<string>>)
  {
    match location
    case None => None
    case Some(s) =>
      match FindFrom(s, 0)
      case None => None
      case Some((_, g)) =>
        if ValidDecimal(g.latitude) && ValidDecimal(g.longitude) then Some([g.latitude, g.longitude])
        else None
  }

  /** The pattern matches at `i` and nowhere before. */
  predicate LeftmostMatch(s: string, i: nat) {
    i <= |s| && MatchAt(s, i).Some? && forall k :: 0 <= k < i ==> MatchAt(s, k).None?
  }

  lemma LeftmostUnique(s: string, i: nat, j: nat)
    requires LeftmostMatch(s, i) && LeftmostMatch(s, j)
    ensures i == j
  {
  }

  /** The result is non-null exactly when the location is non-null, the pattern matches
      somewhere and both groups of the leftmost match are numbers; it then holds exactly
      those two groups, each a sign followed by `[0-9.]`. */
  lemma ParseResult(location: Option<string>)
    ensures location.None? ==> Parse(location).None?
    ensures location.Some? ==>
      var s := location.value;
      && (Parse(location).Some? <==>
            exists i :: LeftmostMatch(s, i)
                        && ValidDecimal(MatchAt(s, i).value.latitude) && ValidDecimal(MatchAt(s, i).value.longitude))
      && (Parse(location).Some? ==>
            && |Parse(location).value| == 2 && IsGroup(Parse(location).value[0]) && IsGroup(Parse(location).value[1])
            && exists i :: LeftmostMatch(s, i)
                           && Parse(location).value == [MatchAt(s, i).value.latitude, MatchAt(s, i).value.longitude])
  {
    if location.Some? {
      var s := location.value;
      var found := FindFrom(s, 0);
      if found.Some? {
        var i := found.value.0;
        assert LeftmostMatch(s, i);
        MatchAtSound(s, i);
        forall i' | LeftmostMatch(s, i')
          ensures i' == i
        {
          LeftmostUnique(s, i, i');
        }
      } else {
        forall i' | LeftmostMatch(s, i')
          ensures false
        {
        }
      }
    }
  }

  /** When the pattern matches at the very start, that match decides the result. */
  lemma ParseFromStart(s: string)
    requires MatchAt(s, 0).Some?
    ensures var g := MatchAt(s, 0).value;
      Parse(Some(s)) == if ValidDecimal(g.latitude) && ValidDecimal(g.longitude) then Some([g.latitude, g.longitude]) else None
  {
  }

  /** Two groups at the very start of a location, followed by anything that cannot extend
      the second: the result is those two groups exactly when both are numbers. */
  lemma ParseTwoGroups(latitude: string, longitude: string, rest: string)
    requires IsGroup(latitude) && IsGroup(longitude) && (rest == [] || !IsRunChar(rest[0]))
    ensures Parse(Some(latitude + longitude + rest))
      == if ValidDecimal(latitude) && ValidDecimal(longitude) then Some([latitude, longitude]) else None
  {
    var s := latitude + longitude + rest;
    var j, k := |latitude|, |latitude| + |longitude|;
    assert s[0..j] == latitude;
    assert s[j..k] == longitude;
    assert forall m :: 0 <= m < j ==> s[m] == latitude[m];
    assert forall m :: j <= m < k ==> s[m] == longitude[m - j];
    assert k < |s| ==> s[k] == rest[0];
    MatchAtGroups(s, 0, j, k);
    ParseFromStart(s);
  }

  /** A location with an altitude: the second group stops at the altitude's sign. */
  lemma ParseWithAltitude()
    ensures Parse(Some("+1.5" + "-2" + "+9/")) == Some(["+1.5", "-2"])
  {
    ParseTwoGroups("+1.5", "-2", "+9/");
    assert '0' <= "+1.5"[1] <= '9' && '0' <= "-2"[1] <= '9';
  }

  /** Only the leftmost match is tried: its latitude group has two points, so the result is
      null, although the rest of the location on its own parses. */
  lemma LeftmostMatchOnly()
    ensures Parse(Some("+1.." + "+2" + "+3-4")).None?
    ensures Parse(Some("+3" + "-4" + "")) == Some(["+3", "-4"])
  {
    ParseTwoGroups("+1..", "+2", "+3-4");
    ParseTwoGroups("+3", "-4", "");
    assert '0' <= "+3"[1] <= '9' && '0' <= "-4"[1] <= '9';
  }
}
