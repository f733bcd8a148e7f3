/** The two JavaScript string operations the web client uses on its URL:
    `String.prototype.includes` and `String.prototype.split` with a non-empty
    string separator. */
module TextSearch {

  import opened Wrappers

  /** `sep` occurs in `s` starting at index `j`. */
  predicate OccursAt(s: string, sep: string, j: int) {
    0 <= j && j + |sep| <= |s| && s[j..j + |sep|] == sep
  }

  /** `s.includes(sep)`. */
  predicate Contains(s: string, sep: string)
    ensures Contains(s, sep) ==> |sep| <= |s|
    ensures |sep| == 0 ==> Contains(s, sep)
  {
    assert OccursAt(s, [], 0);
    exists j | 0 <= j <= |s| :: OccursAt(s, sep, j)
  }

  /** `s.indexOf(sep, i)`: the first occurrence of `sep` in `s` at or after `i`, if any. */
  function FindFrom(s: string, sep: string, i: nat): (r: Option<nat>)
    requires |sep| > 0 && i <= |s|
    ensures r.None? ==> forall j :: i <= j ==> !OccursAt(s, sep, j)
    ensures r.Some? ==> i <= r.value && OccursAt(s, sep, r.value)
    ensures r.Some? ==> forall j :: i <= j < r.value ==> !OccursAt(s, sep, j)
    decreases |s| - i
  {
    if i + |sep| > |s| then None
    else if s[i..i + |sep|] == sep then Some(i)
    else FindFrom(s, sep, i + 1)
  }

  /** `s.indexOf(sep)`: the first occurrence of `sep` in `s`, if any. */
  function Find(s: string, sep: string): (r: Option<nat>)
    requires |sep| > 0
    ensures r.None? <==> !Contains(s, sep)
    ensures r.Some? ==> OccursAt(s, sep, r.value)
    ensures r.Some? ==> forall j :: 0 <= j < r.value ==> !OccursAt(s, sep, j)
  {
    FindFrom(s, sep, 0)
  }

  /** `s.split(sep)`: the pieces between successive non-overlapping
      occurrences of `sep`, scanning left to right. */
  function Split(s: string, sep: string): (parts: seq<string>)
    requires |sep| > 0
    ensures |parts| >= 1
    decreases |s|
  {
    var found := Find(s, sep);
    if found.None? then [s]
    else
      var i := found.value;
      [s[..i]] + Split(s[i + |sep|..], sep)
  }

  /** The text splits into more than one piece exactly when it contains the separator. */
  lemma SplitSeveral(s: string, sep: string)
    requires |sep| > 0
    ensures |Split(s, sep)| == 1 <==> !Contains(s, sep)
  {
  }

  /** No piece of a split contains the separator. */
  lemma {:induction false} SplitPiecesFree(s: string, sep: string)
    requires |sep| > 0
    ensures forall k :: 0 <= k < |Split(s, sep)| ==> !Contains(Split(s, sep)[k], sep)
    decreases |s|
  {
    var found := Find(s, sep);
    if found.Some? {
      var i := found.value;
      var rest := s[i + |sep|..];
      var parts, later := Split(s, sep), Split(rest, sep);
      assert parts == [s[..i]] + later;
      SplitPiecesFree(rest, sep);
      forall k | 0 <= k < |parts|
        ensures !Contains(parts[k], sep)
      {
        if k == 0 {
          PrefixBeforeFirst(s, sep, i);
        } else {
          assert parts[k] == later[k - 1];
        }
      }
    }
  }

  /** The text before the first occurrence holds no occurrence. */
  lemma PrefixBeforeFirst(s: string, sep: string, i: nat)
    requires |sep| > 0 && i <= |s|
    requires forall j :: 0 <= j < i ==> !OccursAt(s, sep, j)
    ensures !Contains(s[..i], sep)
  {
    forall j | OccursAt(s[..i], sep, j)
      ensures false
    {
      assert s[..i][j..j + |sep|] == s[j..j + |sep|];
      assert OccursAt(s, sep, j);
    }
  }

  /** `parts.join(sep)`. */
  function Join(parts: seq<string>, sep: string): string
    requires |parts| >= 1
  {
    if |parts| == 1 then parts[0] else parts[0] + sep + Join(parts[1..], sep)
  }

  /** Splitting loses nothing: joining the pieces back gives the original text. */
  lemma {:induction false} JoinSplit(s: string, sep: string)
    requires |sep| > 0
    ensures Join(Split(s, sep), sep) == s
    decreases |s|
  {
    var found := Find(s, sep);
    if found.Some? {
      var i := found.value;
      var rest := s[i + |sep|..];
      var parts := Split(s, sep);
      assert parts == [s[..i]] + Split(rest, sep);
      assert parts[1..] == Split(rest, sep);
      JoinSplit(rest, sep);
      assert |parts| >= 2 && parts[0] == s[..i];
      assert Join(parts, sep) == parts[0] + sep + Join(parts[1..], sep);
      assert s == s[..i] + s[i..i + |sep|] + rest;
    }
  }

  /** A piece is followed, in the joined text, by the separator and the next piece. */
  lemma JoinStartsWith(parts: seq<string>, sep: string)
    requires |parts| >= 2
    ensures parts[0] + sep + parts[1] <= Join(parts, sep)
    ensures |parts| >= 3 ==> parts[0] + sep + parts[1] + sep <= Join(parts, sep)
  {
  }

  /** Text that lacks the separator's first character cannot contain it. */
  lemma AbsentFirstChar(s: string, sep: string)
    requires |sep| > 0 && sep[0] !in s
    ensures !Contains(s, sep)
  {
    forall j | OccursAt(s, sep, j) ensures false {
      CharOfOccurrence(s, sep, j, 0);
    }
  }

  /** Where `sep[0]` does not recur inside `sep`, an occurrence of `sep` cannot
      start strictly inside another occurrence. */
  lemma NoOverlap(s: string, sep: string, j: int, m: int)
    requires |sep| > 0
    requires forall k :: 1 <= k < |sep| ==> sep[k] != sep[0]
    requires OccursAt(s, sep, j) && OccursAt(s, sep, m)
    ensures !(j < m < j + |sep|)
  {
    if j < m < j + |sep| {
      CharOfOccurrence(s, sep, j, m - j);
      CharOfOccurrence(s, sep, m, 0);
    }
  }

  lemma CharOfOccurrence(s: string, sep: string, j: int, k: int)
    requires OccursAt(s, sep, j) && 0 <= k < |sep|
    ensures s[j + k] == sep[k]
  {
  }

  /** Splitting a text made of two separator-free pieces around one separator
      gives back exactly those two pieces, provided `sep[0]` does not recur
      inside `sep` (so that no occurrence can straddle the piece boundary). */
  lemma SplitAround(a: string, sep: string, b: string)
    requires |sep| > 0
    requires forall k :: 1 <= k < |sep| ==> sep[k] != sep[0]
    requires !Contains(a, sep) && !Contains(b, sep)
    ensures Split(a + sep + b, sep) == [a, b]
  {
    var s := a + sep + b;
    assert s[|a|..|a| + |sep|] == sep;
    assert OccursAt(s, sep, |a|);
    forall j | 0 <= j < |a| && OccursAt(s, sep, j)
      ensures false
    {
      if j + |sep| <= |a| {
        assert s[j..j + |sep|] == a[j..j + |sep|];
        assert OccursAt(a, sep, j);
      } else {
        NoOverlap(s, sep, j, |a|);
      }
    }
    var found := Find(s, sep);
    assert found == Some(|a|);
    assert s[..|a|] == a;
    assert s[|a| + |sep|..] == b;
    assert Split(s, sep) == [a] + Split(b, sep);
  }
}
