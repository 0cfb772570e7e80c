/** The lock-level classifier: which table lock a statement takes, guessed from
    the statement's leading keywords. */
module LockLevels {
  import opened Text

  /** How dangerous a lock level is, from harmless to blocking everything. */
  datatype Risk = Low | Moderate | Elevated | Severe | Undetermined

  /** The lock levels of the table, UNKNOWN being the classifier's fallback. */
  datatype LockLevel =
    | AccessShare | RowShare | RowExclusive | ShareUpdateExclusive | Share
    | ShareRowExclusive | Exclusive | AccessExclusive | Unknown
  {
    /** The level's key in the table. */
    function Name(): string {
      match this
      case AccessShare => "ACCESS SHARE"
      case RowShare => "ROW SHARE"
      case RowExclusive => "ROW EXCLUSIVE"
      case ShareUpdateExclusive => "SHARE UPDATE EXCLUSIVE"
      case Share => "SHARE"
      case ShareRowExclusive => "SHARE ROW EXCLUSIVE"
      case Exclusive => "EXCLUSIVE"
      case AccessExclusive => "ACCESS EXCLUSIVE"
      case Unknown => "UNKNOWN"
    }

    /** The level's risk marker in the table. */
    function Risk(): Risk {
      match this
      case AccessShare | RowShare => Low
      case RowExclusive | ShareUpdateExclusive | Share => Moderate
      case ShareRowExclusive => Elevated
      case Exclusive | AccessExclusive => Severe
      case Unknown => Undetermined
    }
  }

  /** The closed table of lock levels, in table order. */
  const LockTable: seq<LockLevel> := [
    AccessShare, RowShare, RowExclusive, ShareUpdateExclusive, Share,
    ShareRowExclusive, Exclusive, AccessExclusive, Unknown]

  /** The classifier's answer: the level, its key and its risk marker. */
  datatype LockInfo = LockInfo(level: string, risk: Risk)

  /** The statement upper-cased, with every run of whitespace collapsed to one
      space and none at either end. */
  function Normalize(query: string): string {
    Join(Words(Upper(Strip(query))), " ")
  }

  /** The ordered prefix match on a normalized statement; the first test that
      holds decides, so the more specific prefix is tested first. */
  function LevelFor(q: string): (l: LockLevel)
  {
    if StartsWith(q, "SELECT") && Contains(q, "FOR UPDATE") then RowExclusive
    else if StartsWith(q, "SELECT") then AccessShare
    else if StartsWith(q, "INSERT") then RowExclusive
    else if StartsWith(q, "UPDATE") then RowExclusive
    else if StartsWith(q, "DELETE") then RowExclusive
    else if StartsWith(q, "CREATE INDEX CONCURRENTLY") then ShareUpdateExclusive
    else if StartsWith(q, "CREATE INDEX") then AccessExclusive
    else if StartsWith(q, "ALTER") then AccessExclusive
    else if StartsWith(q, "DROP") then AccessExclusive
    else if StartsWith(q, "TRUNCATE") then AccessExclusive
    else Unknown
  }

  /** The recognised keywords other than the two nested CREATE INDEX prefixes
      rule each other out: each fixes the statement's first two characters. */
  lemma KeywordsExclude(q: string)
    ensures StartsWith(q, "SELECT") ==>
              !StartsWith(q, "INSERT") && !StartsWith(q, "UPDATE") && !StartsWith(q, "DELETE")
              && !StartsWith(q, "CREATE INDEX") && !StartsWith(q, "ALTER")
              && !StartsWith(q, "DROP") && !StartsWith(q, "TRUNCATE")
    ensures StartsWith(q, "INSERT") || StartsWith(q, "UPDATE") || StartsWith(q, "DELETE") ==>
              !StartsWith(q, "CREATE INDEX") && !StartsWith(q, "ALTER")
              && !StartsWith(q, "DROP") && !StartsWith(q, "TRUNCATE")
    ensures StartsWith(q, "INSERT") ==> !StartsWith(q, "UPDATE") && !StartsWith(q, "DELETE")
    ensures StartsWith(q, "UPDATE") ==> !StartsWith(q, "DELETE")
    ensures StartsWith(q, "CREATE INDEX") ==>
              !StartsWith(q, "ALTER") && !StartsWith(q, "DROP") && !StartsWith(q, "TRUNCATE")
    ensures StartsWith(q, "ALTER") ==> !StartsWith(q, "DROP") && !StartsWith(q, "TRUNCATE")
    ensures StartsWith(q, "DROP") ==> !StartsWith(q, "TRUNCATE")
  {
    PrefixChars(q, "SELECT");
    PrefixChars(q, "INSERT");
    PrefixChars(q, "UPDATE");
    PrefixChars(q, "DELETE");
    PrefixChars(q, "CREATE INDEX");
    PrefixChars(q, "ALTER");
    PrefixChars(q, "DROP");
    PrefixChars(q, "TRUNCATE");
  }

  lemma LevelForKeyword(q: string)
    ensures StartsWith(q, "SELECT") && Contains(q, "FOR UPDATE") ==> LevelFor(q) == RowExclusive
    ensures StartsWith(q, "SELECT") && !Contains(q, "FOR UPDATE") ==> LevelFor(q) == AccessShare
    ensures StartsWith(q, "INSERT") || StartsWith(q, "UPDATE") || StartsWith(q, "DELETE") ==>
              LevelFor(q) == RowExclusive
    ensures StartsWith(q, "CREATE INDEX CONCURRENTLY") ==> LevelFor(q) == ShareUpdateExclusive
    ensures StartsWith(q, "CREATE INDEX") && !StartsWith(q, "CREATE INDEX CONCURRENTLY") ==>
              LevelFor(q) == AccessExclusive
    ensures StartsWith(q, "ALTER") || StartsWith(q, "DROP") || StartsWith(q, "TRUNCATE") ==>
              LevelFor(q) == AccessExclusive
  {
    KeywordsExclude(q);
  }

  /** The lock a statement takes: a level of the table, reported by its key and
      its risk marker. */
  function DetectLockLevel(query: string): (r: LockInfo)
    ensures exists l :: l in LockTable && r == LockInfo(l.Name(), l.Risk())
  {
    var level := LevelFor(Normalize(query));
    LockInfo(level.Name(), level.Risk())
  }

  /** The statement keywords the classifier recognises. */
  const Keywords: seq<string> :=
    ["SELECT", "INSERT", "UPDATE", "DELETE", "CREATE INDEX", "ALTER", "DROP", "TRUNCATE"]

  lemma ConcurrentlyStartsCreateIndex(q: string)
    requires StartsWith(q, "CREATE INDEX CONCURRENTLY")
    ensures StartsWith(q, "CREATE INDEX")
  {
    var p := "CREATE INDEX CONCURRENTLY";
    assert p[..12] == "CREATE INDEX";
    assert q[..12] == q[..|p|][..12];
  }

  /** A normalized statement is UNKNOWN exactly when it starts with none of the
      recognised keywords. */
  lemma UnknownIffNoKeyword(q: string)
    ensures LevelFor(q) == Unknown <==> forall k | k in Keywords :: !StartsWith(q, k)
  {
    if StartsWith(q, "CREATE INDEX CONCURRENTLY") {
      ConcurrentlyStartsCreateIndex(q);
    }
  }

  /** Whatever the statement, its risk is undetermined exactly when its level is UNKNOWN. */
  lemma UndeterminedOnlyForUnknown(query: string)
    ensures DetectLockLevel(query).risk == Undetermined <==> LevelFor(Normalize(query)) == Unknown
  {
  }

  /** The more specific prefix wins where two prefixes overlap: a statement that
      starts with CREATE INDEX CONCURRENTLY also starts with CREATE INDEX, and a
      SELECT ... FOR UPDATE also starts with SELECT. */
  lemma SpecificPrefixWins(q: string)
    ensures StartsWith(q, "CREATE INDEX CONCURRENTLY") ==>
              StartsWith(q, "CREATE INDEX") && LevelFor(q) == ShareUpdateExclusive
    ensures StartsWith(q, "SELECT") && Contains(q, "FOR UPDATE") ==> LevelFor(q) == RowExclusive
  {
    var c := "CREATE INDEX CONCURRENTLY";
    if StartsWith(q, c) {
      ConcurrentlyStartsCreateIndex(q);
      StartsWithFirstChar(q, c, "SELECT");
      StartsWithFirstChar(q, c, "INSERT");
      StartsWithFirstChar(q, c, "UPDATE");
      StartsWithFirstChar(q, c, "DELETE");
    }
  }

  lemma NormalizeUpper(query: string)
    ensures Normalize(query) == Join(Words(Upper(query)), " ")
  {
    StripUpper(query);
    WordsOfStrip(Upper(query));
  }

  /** Statements that upper-case alike normalize alike. */
  lemma NormalizeIgnoresCase(q1: string, q2: string)
    requires Upper(q1) == Upper(q2)
    ensures Normalize(q1) == Normalize(q2)
  {
    NormalizeUpper(q1);
    NormalizeUpper(q2);
  }

  /** Case does not matter: statements that upper-case alike get the same level. */
  lemma LockLevelIgnoresCase(q1: string, q2: string)
    requires Upper(q1) == Upper(q2)
    ensures DetectLockLevel(q1) == DetectLockLevel(q2)
  {
    NormalizeIgnoresCase(q1, q2);
  }

  /** In particular, a statement and its lower-case spelling get the same level. */
  lemma LockLevelOfLowerCase(query: string)
    ensures DetectLockLevel(Lower(query)) == DetectLockLevel(query)
  {
    UpperOfLower(query);
    LockLevelIgnoresCase(Lower(query), query);
  }

  /** A non-empty run of whitespace normalizes to one space. */
  lemma NormalizeIgnoresSpacing(a: string, w: string, b: string)
    requires |w| > 0 && AllSpace(w)
    ensures Normalize(a + w + b) == Normalize(a + " " + b)
  {
    assert AllSpace(" ");
    NormalizeUpper(a + w + b);
    NormalizeUpper(a + " " + b);
    UpperAround(a, w, b);
    UpperAround(a, " ", b);
    WordsAroundSpace(Upper(a), w, Upper(b));
    WordsAroundSpace(Upper(a), " ", Upper(b));
  }

  /** Spacing does not matter: any non-empty run of whitespace between two parts of
      a statement reads as one space. */
  lemma LockLevelIgnoresSpacing(a: string, w: string, b: string)
    requires |w| > 0 && AllSpace(w)
    ensures DetectLockLevel(a + w + b) == DetectLockLevel(a + " " + b)
  {
    NormalizeIgnoresSpacing(a, w, b);
  }

  /** Surrounding whitespace normalizes away. */
  lemma NormalizeIgnoresPadding(query: string, w1: string, w2: string)
    requires AllSpace(w1) && AllSpace(w2)
    ensures Normalize(w1 + query + w2) == Normalize(query)
  {
    NormalizeUpper(w1 + query + w2);
    NormalizeUpper(query);
    UpperPadded(w1, query, w2);
    WordsOfPadded(w1, Upper(query), w2);
  }

  /** Leading and trailing whitespace does not matter. */
  lemma LockLevelIgnoresPadding(query: string, w1: string, w2: string)
    requires AllSpace(w1) && AllSpace(w2)
    ensures DetectLockLevel(w1 + query + w2) == DetectLockLevel(query)
  {
    NormalizeIgnoresPadding(query, w1, w2);
  }
}
