/**
 * The parts of Go's `strings` package that the command-line tool relies on,
 * on `string` = `seq<char>`: prefix and substring tests, `ReplaceAll`,
 * `Split`/`Join`, `SplitN(s, sep, 2)` and `TrimSpace`.
 */
module GoStrings {
  import opened Wrappers

  /** strings.HasPrefix */
  predicate HasPrefix(s: string, p: string) {
    |p| <= |s| && s[..|p|] == p
  }

  /** strings.Contains: `t` occurs at some position of `s`. */
  predicate Contains(s: string, t: string)
    decreases |s|
  {
    HasPrefix(s, t) || (|s| > 0 && Contains(s[1..], t))
  }

  /** `Contains` holds exactly when `t` occurs at some index of `s`. */
  lemma {:induction false} ContainsIffOccurs(s: string, t: string)
    ensures Contains(s, t) <==> exists i :: 0 <= i <= |s| && HasPrefix(s[i..], t)
    decreases |s|
  {
    assert s[0..] == s;
    if |s| > 0 {
      ContainsIffOccurs(s[1..], t);
      if Contains(s, t) && !HasPrefix(s, t) {
        var i :| 0 <= i <= |s[1..]| && HasPrefix(s[1..][i..], t);
        assert s[1..][i..] == s[i + 1..];
      }
      if exists i :: 0 <= i <= |s| && HasPrefix(s[i..], t) {
        var i :| 0 <= i <= |s| && HasPrefix(s[i..], t);
        if i > 0 {
          assert s[1..][i - 1..] == s[i..];
        }
      }
    }
  }

  /** A `${NAME}` placeholder: `$` only in front, `}` only at the end. */
  predicate IsPlaceholder(p: string) {
    |p| >= 2 && p[0] == '$' && p[|p| - 1] == '}'
    && (forall k :: 0 < k < |p| ==> p[k] != '$')
    && (forall k :: 0 <= k < |p| - 1 ==> p[k] != '}')
  }

  /** The only placeholder a placeholder contains is itself. */
  lemma PlaceholderContains(s: string, t: string)
    requires IsPlaceholder(s) && IsPlaceholder(t)
    ensures Contains(s, t) ==> s == t
  {
    if Contains(s, t) {
      ContainsIffOccurs(s, t);
      var i :| 0 <= i <= |s| && HasPrefix(s[i..], t);
      assert s[i] == t[0];
      assert i == 0;
      assert s[|t| - 1] == '}';
      assert |t| == |s|;
      assert s == s[..|t|];
    }
  }

  /** Distinct placeholders do not occur in one another. */
  lemma PlaceholdersApart(pairs: seq<(string, string)>)
    requires forall k :: 0 <= k < |pairs| ==> IsPlaceholder(pairs[k].0)
    requires forall j, k :: 0 <= j < k < |pairs| ==> pairs[j].0 != pairs[k].0
    ensures forall j, k :: 0 <= j < |pairs| && 0 <= k < |pairs| && j != k ==> !Contains(pairs[j].0, pairs[k].0)
  {
    forall j, k | 0 <= j < |pairs| && 0 <= k < |pairs| && j != k
      ensures !Contains(pairs[j].0, pairs[k].0)
    {
      PlaceholderContains(pairs[j].0, pairs[k].0);
    }
  }

  /** A string holds nothing longer than itself, and the only thing of its own length it holds is itself. */
  lemma {:induction false} ContainsLength(s: string, t: string)
    ensures Contains(s, t) ==> |t| <= |s| && (|t| == |s| ==> s == t)
    decreases |s|
  {
    if |s| > 0 {
      ContainsLength(s[1..], t);
    }
    if HasPrefix(s, t) && |t| == |s| {
      assert s[..|t|] == s;
    }
  }

  /**
   * strings.ReplaceAll for a non-empty pattern: scanning left to right, every
   * occurrence of `pat` that does not overlap an earlier replaced one becomes `rep`;
   * the replacement text itself is not scanned again.
   */
  function ReplaceAll(s: string, pat: string, rep: string): string
    requires pat != ""
    decreases |s|
  {
    if s == [] then []
    else if HasPrefix(s, pat) then rep + ReplaceAll(s[|pat|..], pat, rep)
    else [s[0]] + ReplaceAll(s[1..], pat, rep)
  }

  /** strings.Split for a non-empty separator: the pieces between the leftmost non-overlapping separators. */
  function Split(s: string, sep: string): (parts: seq<string>)
    requires sep != ""
    ensures |parts| >= 1
    decreases |s|
  {
    if HasPrefix(s, sep) then [""] + Split(s[|sep|..], sep)
    else if s == [] then [""]
    else
      var rest := Split(s[1..], sep);
      [[s[0]] + rest[0]] + rest[1..]
  }

  /** strings.Join */
  function Join(parts: seq<string>, sep: string): string
    decreases |parts|
  {
    if |parts| == 0 then ""
    else if |parts| == 1 then parts[0]
    else parts[0] + sep + Join(parts[1..], sep)
  }

  /** Text without the pattern is left as it is. */
  lemma {:induction false} ReplaceAllAbsent(s: string, pat: string, rep: string)
    requires pat != ""
    requires !Contains(s, pat)
    ensures ReplaceAll(s, pat, rep) == s
    decreases |s|
  {
    if s != [] {
      ReplaceAllAbsent(s[1..], pat, rep);
    }
  }

  /** Replacing a pattern by itself changes nothing. */
  lemma {:induction false} ReplaceAllSame(s: string, pat: string)
    requires pat != ""
    ensures ReplaceAll(s, pat, pat) == s
    decreases |s|
  {
    if s != [] {
      if HasPrefix(s, pat) {
        ReplaceAllSame(s[|pat|..], pat);
        assert s == pat + s[|pat|..];
      } else {
        ReplaceAllSame(s[1..], pat);
        assert s == [s[0]] + s[1..];
      }
    }
  }

  /** The text that is exactly the pattern becomes exactly the replacement. */
  lemma ReplaceAllWhole(pat: string, rep: string)
    requires pat != ""
    ensures ReplaceAll(pat, pat, rep) == rep
  {
    assert pat[|pat|..] == [];
  }

  /** `Join` of a first piece and the rest. */
  lemma JoinCons(p: string, ps: seq<string>, sep: string)
    requires |ps| >= 1
    ensures Join([p] + ps, sep) == p + sep + Join(ps, sep)
  {
    assert ([p] + ps)[1..] == ps;
  }

  /** Extending the first piece extends the joined text. */
  lemma JoinExtendFirst(c: char, ps: seq<string>, sep: string)
    requires |ps| >= 1
    ensures Join([[c] + ps[0]] + ps[1..], sep) == [c] + Join(ps, sep)
  {
    if |ps| > 1 {
      JoinCons([c] + ps[0], ps[1..], sep);
      JoinCons(ps[0], ps[1..], sep);
      assert ps == [ps[0]] + ps[1..];
    }
  }

  /**
   * ReplaceAll agrees with splitting at every occurrence of the pattern and
   * joining the pieces with the replacement.
   */
  lemma {:induction false} ReplaceAllIsSplitJoin(s: string, pat: string, rep: string)
    requires pat != ""
    ensures ReplaceAll(s, pat, rep) == Join(Split(s, pat), rep)
    decreases |s|
  {
    if HasPrefix(s, pat) {
      ReplaceAllIsSplitJoin(s[|pat|..], pat, rep);
      JoinCons("", Split(s[|pat|..], pat), rep);
    } else if s != [] {
      ReplaceAllIsSplitJoin(s[1..], pat, rep);
      JoinExtendFirst(s[0], Split(s[1..], pat), rep);
    }
  }

  /** Joining the pieces of a split with the separator gives the text back. */
  lemma SplitJoinRoundTrip(s: string, sep: string)
    requires sep != ""
    ensures Join(Split(s, sep), sep) == s
  {
    ReplaceAllIsSplitJoin(s, sep, sep);
    ReplaceAllSame(s, sep);
  }

  /** No piece of a split contains the separator. */
  lemma {:induction false} SplitPiecesFree(s: string, sep: string)
    requires sep != ""
    ensures forall k :: 0 <= k < |Split(s, sep)| ==> !Contains(Split(s, sep)[k], sep)
    decreases |s|
  {
    var parts := Split(s, sep);
    if HasPrefix(s, sep) {
      SplitPiecesFree(s[|sep|..], sep);
      assert !Contains("", sep);
      forall k | 0 <= k < |parts| ensures !Contains(parts[k], sep) {
        if k > 0 { assert parts[k] == Split(s[|sep|..], sep)[k - 1]; }
      }
    } else if s != [] {
      var rest := Split(s[1..], sep);
      SplitPiecesFree(s[1..], sep);
      var first := [s[0]] + rest[0];
      PrefixOfSplitFirst(s[1..], sep);
      assert HasPrefix(s[1..], rest[0]);
      assert HasPrefix(s, first) by {
        assert s == [s[0]] + s[1..];
      }
      assert !HasPrefix(first, sep) by {
        if HasPrefix(first, sep) { PrefixTrans(s, first, sep); }
      }
      assert first[1..] == rest[0];
      assert !Contains(first, sep);
      forall k | 0 <= k < |parts| ensures !Contains(parts[k], sep) {
        if k > 0 { assert parts[k] == rest[k]; }
      }
    }
  }

  /** The first piece of a split is a prefix of the text. */
  lemma {:induction false} PrefixOfSplitFirst(s: string, sep: string)
    requires sep != ""
    ensures HasPrefix(s, Split(s, sep)[0])
    decreases |s|
  {
    if !HasPrefix(s, sep) && s != [] {
      PrefixOfSplitFirst(s[1..], sep);
    }
  }

  lemma PrefixTrans(s: string, t: string, u: string)
    requires HasPrefix(s, t) && HasPrefix(t, u)
    ensures HasPrefix(s, u)
  {
    assert s[..|u|] == t[..|u|];
  }

  /**
   * strings.SplitN(s, [c], 2) where the caller keeps only two-part results:
   * `Some((key, value))` cuts at the first `c`; `None` when `c` does not occur.
   */
  function SplitOnce(s: string, c: char): (r: Option<(string, string)>)
    ensures r.Some? <==> c in s
    ensures r.Some? ==> s == r.value.0 + [c] + r.value.1 && c !in r.value.0
    decreases |s|
  {
    if s == [] then None
    else if s[0] == c then Some(([], s[1..]))
    else
      match SplitOnce(s[1..], c)
      case None => None
      case Some(kv) => Some(([s[0]] + kv.0, kv.1))
  }

  /** unicode.IsSpace: the characters TrimSpace and fmt's scanner treat as white space. */
  predicate IsSpace(c: char) {
    c == '\t' || c == '\n' || c == '\U{B}' || c == '\U{C}' || c == '\r' || c == ' '
    || c == '\U{85}' || c == '\U{A0}' || c == '\U{1680}'
    || ('\U{2000}' <= c <= '\U{200A}')
    || c == '\U{2028}' || c == '\U{2029}' || c == '\U{202F}' || c == '\U{205F}' || c == '\U{3000}'
  }

  /** Every character of `s` is white space. */
  predicate AllSpace(s: string) {
    forall k :: 0 <= k < |s| ==> IsSpace(s[k])
  }

  /** Length of the leading run of white space. */
  function LeadingSpace(s: string): (i: nat)
    ensures i <= |s| && AllSpace(s[..i])
    ensures i < |s| ==> !IsSpace(s[i])
    decreases |s|
  {
    if s != [] && IsSpace(s[0]) then
      var i := 1 + LeadingSpace(s[1..]);
      assert s[..i] == [s[0]] + s[1..][..i - 1];
      i
    else 0
  }

  /** Index where the trailing run of white space starts. */
  function TrailingSpace(s: string): (j: nat)
    ensures j <= |s| && AllSpace(s[j..])
    ensures j > 0 ==> !IsSpace(s[j - 1])
    decreases |s|
  {
    if s != [] && IsSpace(s[|s| - 1]) then
      var j := TrailingSpace(s[..|s| - 1]);
      assert s[j..] == s[..|s| - 1][j..] + [s[|s| - 1]];
      j
    else |s|
  }

  /**
   * strings.TrimSpace: removes exactly the leading and trailing white space. The
   * result is the slice `s[i..j]`, everything outside it is white space, and it
   * neither starts nor ends with white space.
   */
  function TrimSpace(s: string): (r: string)
    ensures exists i, j :: 0 <= i <= j <= |s| && r == s[i..j] && AllSpace(s[..i]) && AllSpace(s[j..])
    ensures r != [] ==> !IsSpace(r[0]) && !IsSpace(r[|r| - 1])
  {
    var i := LeadingSpace(s);
    var l := s[i..];
    var j := TrailingSpace(l);
    assert l[..j] == s[i..i + j];
    assert l[j..] == s[i + j..];
    l[..j]
  }

  predicate NonEmptyPatterns(pairs: seq<(string, string)>) {
    forall k :: 0 <= k < |pairs| ==> pairs[k].0 != ""
  }

  /** One ReplaceAll per (placeholder, value) pair, applied in the order given. */
  function ReplaceEach(s: string, pairs: seq<(string, string)>): string
    requires NonEmptyPatterns(pairs)
    decreases |pairs|
  {
    if pairs == [] then s else ReplaceEach(ReplaceAll(s, pairs[0].0, pairs[0].1), pairs[1..])
  }

  lemma ReplaceEachCons(s: string, p: (string, string), pairs: seq<(string, string)>)
    requires p.0 != "" && NonEmptyPatterns(pairs)
    ensures NonEmptyPatterns([p] + pairs)
    ensures ReplaceEach(s, [p] + pairs) == ReplaceEach(ReplaceAll(s, p.0, p.1), pairs)
  {
    assert ([p] + pairs)[1..] == pairs;
    assert forall k :: 1 <= k < |pairs| + 1 ==> ([p] + pairs)[k] == pairs[k - 1];
  }

  /** Extending the list of pairs applies one more ReplaceAll to the result so far. */
  lemma {:induction false} ReplaceEachSnoc(s: string, pairs: seq<(string, string)>, p: (string, string))
    requires NonEmptyPatterns(pairs) && p.0 != ""
    ensures NonEmptyPatterns(pairs + [p])
    ensures ReplaceEach(s, pairs + [p]) == ReplaceAll(ReplaceEach(s, pairs), p.0, p.1)
    decreases |pairs|
  {
    assert forall k :: 0 <= k < |pairs| ==> (pairs + [p])[k] == pairs[k];
    assert (pairs + [p])[|pairs|] == p;
    if pairs == [] {
      assert [p][1..] == [];
    } else {
      assert (pairs + [p])[1..] == pairs[1..] + [p];
      ReplaceEachSnoc(ReplaceAll(s, pairs[0].0, pairs[0].1), pairs[1..], p);
    }
  }

  /**
   * Text that is exactly the i-th placeholder, and holds none of the earlier ones,
   * becomes the i-th value, which then goes through the remaining pairs.
   */
  lemma {:induction false} ReplaceEachWhole(s: string, pairs: seq<(string, string)>, i: nat)
    requires NonEmptyPatterns(pairs) && i < |pairs| && s == pairs[i].0
    requires forall k :: 0 <= k < i ==> !Contains(s, pairs[k].0)
    ensures ReplaceEach(s, pairs) == ReplaceEach(pairs[i].1, pairs[i + 1..])
    decreases i
  {
    if i == 0 {
      ReplaceAllWhole(s, pairs[0].1);
    } else {
      ReplaceAllAbsent(s, pairs[0].0, pairs[0].1);
      var rest := pairs[1..];
      assert rest[i - 1] == pairs[i] && rest[i..] == pairs[i + 1..];
      assert forall k :: 0 <= k < i - 1 ==> rest[k] == pairs[k + 1];
      ReplaceEachWhole(s, rest, i - 1);
    }
  }

  /** Text that holds none of the placeholders comes back unchanged. */
  lemma {:induction false} ReplaceEachAbsent(s: string, pairs: seq<(string, string)>)
    requires NonEmptyPatterns(pairs)
    requires forall k :: 0 <= k < |pairs| ==> !Contains(s, pairs[k].0)
    ensures ReplaceEach(s, pairs) == s
    decreases |pairs|
  {
    if pairs != [] {
      ReplaceAllAbsent(s, pairs[0].0, pairs[0].1);
      ReplaceEachAbsent(s, pairs[1..]);
    }
  }
}
