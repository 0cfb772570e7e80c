/** The column extractor of the index advisor: a hand-written scanner that finds
    what the pattern `\b([a-zA-Z_][a-zA-Z0-9_]*)\s*(=|>|<|>=|<=|LIKE|ILIKE)` finds
    when Python's `re.findall` runs it over a filter condition. */
module FilterColumns {
  import opened Common
  import opened Text

  /** `[a-zA-Z_]` */
  predicate IsIdentStart(c: char) {
    'a' <= c <= 'z' || 'A' <= c <= 'Z' || c == '_'
  }

  /** `[a-zA-Z0-9_]`, which is also the word-character class `\w` on ASCII text. */
  predicate IsIdentChar(c: char) {
    IsIdentStart(c) || '0' <= c <= '9'
  }

  /** A non-empty identifier of the pattern's first group. */
  predicate IsIdentifier(c: string) {
    |c| > 0 && IsIdentStart(c[0]) && forall i :: 0 < i < |c| ==> IsIdentChar(c[i])
  }

  /** `\b` at `p`: exactly one of the characters around `p` is a word character. */
  predicate WordBoundaryAt(s: string, p: int)
    requires 0 <= p <= |s|
  {
    (p > 0 && IsIdentChar(s[p - 1])) != (p < |s| && IsIdentChar(s[p]))
  }

  /** The comparison operators of the pattern, in the pattern's order of alternatives. */
  const Operators: seq<string> := ["=", ">", "<", ">=", "<=", "LIKE", "ILIKE"]

  /** After index `k`: a run of whitespace, then one of the operators. */
  predicate OperatorFollows(s: string, k: int) {
    exists j, op :: 0 <= k <= j <= |s| && AllSpace(s[k..j]) && op in Operators && OccursAt(s, op, j)
  }

  /** The reference reading of one match of the pattern with `c` as its group,
      starting at `p`: a word boundary, the identifier `c`, a run of whitespace,
      and one of the operators. */
  predicate ComparisonAt(s: string, p: int, c: string) {
    0 <= p && OccursAt(s, c, p) && IsIdentifier(c) && WordBoundaryAt(s, p) && OperatorFollows(s, p + |c|)
  }

  /** The end of the run of identifier characters that starts at `i`. */
  function IdentEnd(s: string, i: int): (e: int)
    requires 0 <= i <= |s|
    ensures i <= e <= |s|
    ensures forall j :: i <= j < e ==> IsIdentChar(s[j])
    ensures e < |s| ==> !IsIdentChar(s[e])
    decreases |s| - i
  {
    if i < |s| && IsIdentChar(s[i]) then IdentEnd(s, i + 1) else i
  }

  /** `\s*`, taken greedily from `i`. */
  function SkipSpaces(s: string, i: int): (j: int)
    requires 0 <= i <= |s|
    ensures i <= j <= |s|
    ensures forall k :: i <= k < j ==> IsSpace(s[k])
    ensures j < |s| ==> !IsSpace(s[j])
    decreases |s| - i
  {
    if i < |s| && IsSpace(s[i]) then SkipSpaces(s, i + 1) else i
  }

  /** Length of the operator alternative that matches at `m`, the first in the
      pattern's order, or 0 when none does. `>=` and `<=` are never chosen, since
      `>` and `<` come before them. */
  function OperatorLen(s: string, m: int): (l: nat)
    requires 0 <= m <= |s|
    ensures l > 0 ==> m + l <= |s|
  {
    if m < |s| && (s[m] == '=' || s[m] == '>' || s[m] == '<') then 1
    else if m + 4 <= |s| && s[m] == 'L' && s[m + 1] == 'I' && s[m + 2] == 'K' && s[m + 3] == 'E' then 4
    else if m + 5 <= |s| && s[m] == 'I' && s[m + 1] == 'L' && s[m + 2] == 'I' && s[m + 3] == 'K' && s[m + 4] == 'E' then 5
    else 0
  }

  /** An operator follows the identifier that ends at `k`, after the whitespace. */
  predicate OperatorAfter(s: string, k: int)
    requires 0 <= k <= |s|
  {
    OperatorLen(s, SkipSpaces(s, k)) > 0
  }

  /** One match: the captured column and the index where the match ends. */
  datatype Match = Match(column: string, end: int)

  /** The backtracking over the identifier's end: ends `k`, `k - 1`, ..., `p + 1`
      are tried in turn, and the first one followed by an operator wins. */
  function TryEnds(s: string, p: int, k: int): (e: Option<int>)
    requires 0 <= p < k <= |s|
    ensures e.Some? ==> p < e.value <= k && OperatorAfter(s, e.value)
    decreases k
  {
    if OperatorAfter(s, k) then Some(k)
    else if k == p + 1 then None
    else TryEnds(s, p, k - 1)
  }

  /** The pattern tried at `p`: a word boundary and an identifier start, then the
      longest identifier run, backtracking until an operator follows. The match
      ends after the operator. */
  function MatchAt(s: string, p: int): (r: Option<Match>)
    requires 0 <= p <= |s|
    ensures r.Some? ==> p < r.value.end <= |s|
  {
    if p < |s| && IsIdentStart(s[p]) && WordBoundaryAt(s, p) then
      match TryEnds(s, p, IdentEnd(s, p + 1))
      case Some(e) =>
        var m := SkipSpaces(s, e);
        Some(Match(s[p..e], m + OperatorLen(s, m)))
      case None => None
    else None
  }

  /** `re.findall` from `p`: a match is taken where the pattern matches and the
      scan resumes where the match ended; elsewhere the scan moves on by one. */
  function Findall(s: string, p: int): (cs: seq<string>)
    requires 0 <= p <= |s|
    ensures forall c :: c in cs ==> exists q :: p <= q < |s| && ComparisonAt(s, q, c)
    decreases |s| - p
  {
    if p == |s| then []
    else match MatchAt(s, p)
      case Some(m) => MatchIsComparison(s, p); [m.column] + Findall(s, m.end)
      case None => Findall(s, p + 1)
  }

  /** The columns of a filter condition: none for a missing or empty filter, else
      the distinct captured identifiers. */
  function ExtractColumns(filter: Option<string>): (cols: set<string>)
    ensures filter.None? || filter == Some("") ==> cols == {}
    ensures filter.Some? ==> forall c :: c in cols ==> exists q :: ComparisonAt(filter.value, q, c)
  {
    match filter
    case None => {}
    case Some(f) => if f == "" then {} else set c | c in Findall(f, 0)
  }

  /** A filter yields no column exactly when no comparison occurs in it. */
  lemma ExtractColumnsEmptyIffNoComparison(f: string)
    ensures ExtractColumns(Some(f)) == {} <==> forall q, c :: !ComparisonAt(f, q, c)
  {
    FindallEmptyIffNoComparison(f, 0);
    if Findall(f, 0) != [] {
      assert Findall(f, 0)[0] in ExtractColumns(Some(f));
    }
  }

  /** The scan from `p` finds nothing exactly when no comparison starts at or
      after `p`. */
  lemma {:induction false} FindallEmptyIffNoComparison(s: string, p: int)
    requires 0 <= p <= |s|
    ensures Findall(s, p) == [] <==> forall q, c :: p <= q < |s| ==> !ComparisonAt(s, q, c)
    decreases |s| - p
  {
    if p < |s| {
      MatchIsComparison(s, p);
      NoMatchNoComparison(s, p);
      if MatchAt(s, p).None? {
        FindallEmptyIffNoComparison(s, p + 1);
      }
    }
  }

  /** The leftmost comparison from `p` on is captured first: the scan's first
      column is a comparison at the same place, as long as any there. */
  lemma {:induction false} FindallCapturesLeftmost(s: string, p: int, q: int, c: string)
    requires 0 <= p <= q && ComparisonAt(s, q, c)
    requires forall q', c' :: p <= q' < q ==> !ComparisonAt(s, q', c')
    ensures p < |s| && Findall(s, p) != []
    ensures ComparisonAt(s, q, Findall(s, p)[0]) && |c| <= |Findall(s, p)[0]|
    decreases q - p
  {
    MatchIsComparison(s, p);
    NoMatchNoComparison(s, p);
    if p < q {
      FindallCapturesLeftmost(s, p + 1, q, c);
    }
  }

  /** A filter with a comparison in it yields a column that is a comparison at the
      place where the first comparison starts, as long as any there. */
  lemma ExtractColumnsLeftmost(f: string, q: int, c: string)
    requires ComparisonAt(f, q, c)
    requires forall q', c' :: 0 <= q' < q ==> !ComparisonAt(f, q', c')
    ensures exists d :: d in ExtractColumns(Some(f)) && ComparisonAt(f, q, d) && |c| <= |d|
  {
    FindallCapturesLeftmost(f, 0, q, c);
    var d := Findall(f, 0)[0];
    assert d in ExtractColumns(Some(f));
  }

  /** The alternatives of the operator group and the operator length agree: some
      operator occurs at `m` exactly when the length is positive. */
  lemma OperatorLenExactly(s: string, m: int)
    requires 0 <= m <= |s|
    ensures OperatorLen(s, m) > 0 <==> exists op :: op in Operators && OccursAt(s, op, m)
  {
    if OperatorLen(s, m) > 0 {
      if m < |s| && s[m] == '=' {
        assert OccursAt(s, "=", m);
      } else if m < |s| && s[m] == '>' {
        assert OccursAt(s, ">", m);
      } else if m < |s| && s[m] == '<' {
        assert OccursAt(s, "<", m);
      } else if OperatorLen(s, m) == 4 {
        assert OccursAt(s, "LIKE", m);
      } else {
        assert OccursAt(s, "ILIKE", m);
      }
    }
  }

  /** Backtracking into `\s*` never helps: an operator can only follow the whole
      run of whitespace, since no operator starts with whitespace. */
  lemma OperatorAfterExactly(s: string, k: int)
    requires 0 <= k <= |s|
    ensures OperatorAfter(s, k) <==> OperatorFollows(s, k)
  {
    if OperatorAfter(s, k) {
      OperatorAfterFollows(s, k);
    }
    if OperatorFollows(s, k) {
      var j, op :| k <= j <= |s| && AllSpace(s[k..j]) && op in Operators && OccursAt(s, op, j);
      OperatorOnlyAfterSpaces(s, k, j, op);
    }
  }

  lemma OperatorAfterFollows(s: string, k: int)
    requires 0 <= k <= |s| && OperatorAfter(s, k)
    ensures OperatorFollows(s, k)
  {
    var m := SkipSpaces(s, k);
    OperatorLenExactly(s, m);
    var op :| op in Operators && OccursAt(s, op, m);
    assert AllSpace(s[k..m]);
  }

  lemma OperatorOnlyAfterSpaces(s: string, k: int, j: int, op: string)
    requires 0 <= k <= j <= |s| && AllSpace(s[k..j]) && op in Operators && OccursAt(s, op, j)
    ensures OperatorAfter(s, k)
  {
    var m := SkipSpaces(s, k);
    assert !IsSpace(op[0]);
    assert s[j] == op[0];
    assert j == m;
    OperatorLenExactly(s, m);
  }

  /** The backtracking finds the longest end followed by an operator, and fails
      exactly when no end is. */
  lemma {:induction false} TryEndsExactly(s: string, p: int, k: int)
    requires 0 <= p < k <= |s|
    ensures TryEnds(s, p, k).Some? ==> forall j :: TryEnds(s, p, k).value < j <= k ==> !OperatorAfter(s, j)
    ensures TryEnds(s, p, k).None? ==> forall j :: p < j <= k ==> !OperatorAfter(s, j)
    decreases k
  {
    if !OperatorAfter(s, k) && k > p + 1 {
      TryEndsExactly(s, p, k - 1);
    }
  }

  /** An identifier at `p`, read through the scanner's pieces: it starts at an
      identifier start and ends within the identifier run. */
  lemma IdentifierAtExactly(s: string, p: int, c: string)
    requires 0 <= p < |s|
    ensures OccursAt(s, c, p) && IsIdentifier(c) <==>
            IsIdentStart(s[p]) && p < p + |c| <= IdentEnd(s, p + 1) && c == s[p..p + |c|]
  {
    var e := IdentEnd(s, p + 1);
    if OccursAt(s, c, p) && IsIdentifier(c) {
      assert s[p] == c[0];
    }
    if IsIdentStart(s[p]) && p < p + |c| <= e && c == s[p..p + |c|] {
      assert forall i :: 0 < i < |c| ==> c[i] == s[p + i];
    }
  }

  /** What the pattern captures at `p` is a comparison at `p`, and the longest one. */
  lemma MatchIsComparison(s: string, p: int)
    requires 0 <= p <= |s|
    ensures MatchAt(s, p).Some? ==> ComparisonAt(s, p, MatchAt(s, p).value.column)
    ensures MatchAt(s, p).Some? ==>
              forall c :: ComparisonAt(s, p, c) ==> |c| <= |MatchAt(s, p).value.column|
  {
    if MatchAt(s, p).Some? {
      var k := IdentEnd(s, p + 1);
      var e := TryEnds(s, p, k).value;
      assert MatchAt(s, p).value.column == s[p..e];
      MatchedComparison(s, p, e);
      forall c | ComparisonAt(s, p, c)
        ensures |c| <= e - p
      {
        NoLongerComparison(s, p, e, c);
      }
    }
  }

  /** The identifier up to the end the backtracking chose is a comparison. */
  lemma MatchedComparison(s: string, p: int, e: int)
    requires 0 <= p < |s| && IsIdentStart(s[p]) && WordBoundaryAt(s, p)
    requires p < IdentEnd(s, p + 1) && TryEnds(s, p, IdentEnd(s, p + 1)) == Some(e)
    ensures ComparisonAt(s, p, s[p..e])
  {
    IdentifierAtExactly(s, p, s[p..e]);
    OperatorAfterExactly(s, e);
  }

  /** No comparison at `p` is longer than the one up to the chosen end. */
  lemma NoLongerComparison(s: string, p: int, e: int, c: string)
    requires 0 <= p < |s| && p < IdentEnd(s, p + 1) && TryEnds(s, p, IdentEnd(s, p + 1)) == Some(e)
    requires ComparisonAt(s, p, c)
    ensures |c| <= e - p
  {
    TryEndsExactly(s, p, IdentEnd(s, p + 1));
    IdentifierAtExactly(s, p, c);
    OperatorAfterExactly(s, p + |c|);
  }

  /** The pattern fails at `p` exactly when no comparison starts at `p`. */
  lemma NoMatchNoComparison(s: string, p: int)
    requires 0 <= p <= |s|
    ensures MatchAt(s, p).None? <==> forall c :: !ComparisonAt(s, p, c)
  {
    MatchIsComparison(s, p);
    if MatchAt(s, p).None? {
      forall c | ComparisonAt(s, p, c)
        ensures false
      {
        assert p < |s|;
        IdentifierAtExactly(s, p, c);
        OperatorAfterExactly(s, p + |c|);
        TryEndsExactly(s, p, IdentEnd(s, p + 1));
      }
    }
  }

  lemma LikeExampleIdentRun(s: string)
    requires s == "aLIKE 'x'"
    ensures IdentEnd(s, 1) == 5
  {
    assert s[1] == 'L' && s[2] == 'I' && s[3] == 'K' && s[4] == 'E' && s[5] == ' ';
    assert IdentEnd(s, 5) == 5;
  }

  lemma LikeExampleOperators(s: string)
    requires s == "aLIKE 'x'"
    ensures OperatorAfter(s, 1)
    ensures !OperatorAfter(s, 2) && !OperatorAfter(s, 3) && !OperatorAfter(s, 4) && !OperatorAfter(s, 5)
  {
    assert s[1] == 'L' && s[2] == 'I' && s[3] == 'K' && s[4] == 'E' && s[5] == ' ' && s[6] == '\'';
    assert SkipSpaces(s, 5) == 6;
    assert SkipSpaces(s, 1) == 1;
  }

  lemma LikeExampleBacktracks(s: string)
    requires s == "aLIKE 'x'"
    ensures TryEnds(s, 0, IdentEnd(s, 1)) == Some(1)
  {
    LikeExampleIdentRun(s);
    LikeExampleOperators(s);
    assert TryEnds(s, 0, 5) == TryEnds(s, 0, 4);
    assert TryEnds(s, 0, 4) == TryEnds(s, 0, 3);
    assert TryEnds(s, 0, 3) == TryEnds(s, 0, 2);
    assert TryEnds(s, 0, 2) == TryEnds(s, 0, 1);
  }

  lemma LikeExampleFirstMatch(s: string)
    requires s == "aLIKE 'x'"
    ensures MatchAt(s, 0) == Some(Match("a", 5))
  {
    LikeExampleBacktracks(s);
    LikeExampleOperatorLen(s);
    assert s[0] == 'a';
    MatchAtChosenEnd(s, 0, 1);
    assert s[0..1] == "a";
  }

  lemma LikeExampleOperatorLen(s: string)
    requires s == "aLIKE 'x'"
    ensures SkipSpaces(s, 1) == 1 && OperatorLen(s, 1) == 4
  {
    assert s[1] == 'L' && s[2] == 'I' && s[3] == 'K' && s[4] == 'E';
  }

  /** Where the identifier start and the boundary hold and the backtracking
      chooses `e`, the match captures up to `e` and ends after the operator. */
  lemma MatchAtChosenEnd(s: string, p: int, e: int)
    requires 0 <= p < |s| && IsIdentStart(s[p]) && WordBoundaryAt(s, p)
    requires TryEnds(s, p, IdentEnd(s, p + 1)) == Some(e)
    ensures MatchAt(s, p) == Some(Match(s[p..e], SkipSpaces(s, e) + OperatorLen(s, SkipSpaces(s, e))))
  {
  }

  lemma LikeExampleRest(s: string)
    requires s == "aLIKE 'x'"
    ensures Findall(s, 5) == []
  {
    assert s[5] == ' ' && s[6] == '\'' && s[7] == 'x' && s[8] == '\'';
    assert MatchAt(s, 8) == None;
    assert IdentEnd(s, 8) == 8 && !OperatorAfter(s, 8);
    assert MatchAt(s, 7) == None;
    assert MatchAt(s, 6) == None && MatchAt(s, 5) == None;
    assert Findall(s, 9) == [];
    assert Findall(s, 8) == [];
    assert Findall(s, 7) == [];
    assert Findall(s, 6) == [];
  }

  /** Where the pattern matches, the scan records the column and resumes after the match. */
  lemma FindallAtMatch(s: string, p: int)
    requires 0 <= p < |s| && MatchAt(s, p).Some?
    ensures Findall(s, p) == [MatchAt(s, p).value.column] + Findall(s, MatchAt(s, p).value.end)
  {
  }

  lemma LikeExampleFindall(s: string)
    requires s == "aLIKE 'x'"
    ensures Findall(s, 0) == ["a"]
  {
    LikeExampleFirstMatch(s);
    LikeExampleRest(s);
    FindallAtMatch(s, 0);
  }

  /** The identifier is cut short where only that lets an operator follow:
      in `aLIKE 'x'` the column is `a`. */
  lemma LikeRightAfterIdentifier()
    ensures ExtractColumns(Some("aLIKE 'x'")) == {"a"}
  {
    var s := "aLIKE 'x'";
    LikeExampleFindall(s);
    assert s != "" by { assert |s| == 9; }
    assert ExtractColumns(Some(s)) == set c | c in Findall(s, 0);
    SetOfOne("a");
  }

  lemma SetOfOne(x: string)
    ensures (set c | c in [x]) == {x}
  {
  }
}
