/**
 * The repository-name grammar the router accepts (`imageNamePattern` in the
 * mux package): one or more components separated by '/', each component runs
 * of [a-z0-9] joined by '.', '_', '__' or one or more '-'.
 *
 * `IsRepositoryName` recognises it the way a left-to-right scanner would;
 * `FollowsNameRules` states the same language as rules about single
 * characters and neighbouring ones; `ScannerMatchesRules` proves the two agree.
 */
module ImageName {
  import opened Wrappers

  predicate IsAlnum(c: char) {
    ('a' <= c <= 'z') || ('0' <= c <= '9')
  }

  /** The characters that may sit between two runs of [a-z0-9]. */
  predicate IsSeparator(c: char) {
    c == '.' || c == '_' || c == '-' || c == '/'
  }

  /** Where the scanner is: what the characters read so far let come next. */
  datatype State =
    | ComponentStart          // at the start of a component: a run must begin
    | InRun                   // inside a run of [a-z0-9]: the name may end here
    | AfterDot                // after '.'
    | AfterUnderscore         // after a single '_'
    | AfterDoubleUnderscore   // after '__'
    | AfterDash               // after one or more '-'

  /** Reading one more character; `None` when the grammar forbids it. */
  function Step(st: State, c: char): Option<State> {
    if IsAlnum(c) then Some(InRun)
    else match st
      case InRun =>
        if c == '.' then Some(AfterDot)
        else if c == '_' then Some(AfterUnderscore)
        else if c == '-' then Some(AfterDash)
        else if c == '/' then Some(ComponentStart)
        else None
      case AfterUnderscore => if c == '_' then Some(AfterDoubleUnderscore) else None
      case AfterDash => if c == '-' then Some(AfterDash) else None
      case _ => None
  }

  /** The scanner's state after reading `s` from `st`; `None` once a character was refused. */
  function Run(st: Option<State>, s: string): Option<State> {
    if s == [] then st
    else match Run(st, s[..|s| - 1])
      case None => None
      case Some(st') => Step(st', s[|s| - 1])
  }

  /** The scanner's state after reading all of `s` from the start of a name. */
  function Scan(s: string): Option<State> {
    Run(Some(ComponentStart), s)
  }

  /** `s` matches `imageNamePattern` in full (the router anchors the pattern). */
  predicate IsRepositoryName(s: string) {
    Scan(s) == Some(InRun)
  }

  /**
   * Rules a prefix of a name obeys: only [a-z0-9./_-]; a letter or digit first;
   * two neighbouring non-alphanumeric characters only as '--' or '__'; never
   * three '_' in a row.
   */
  ghost predicate WellFormedPrefix(s: string) {
    && (forall i :: 0 <= i < |s| ==> IsAlnum(s[i]) || IsSeparator(s[i]))
    && (|s| > 0 ==> IsAlnum(s[0]))
    && (forall i :: 0 <= i < |s| - 1 && !IsAlnum(s[i]) && !IsAlnum(s[i + 1]) ==>
          s[i] == s[i + 1] && (s[i] == '-' || s[i] == '_'))
    && (forall i :: 0 <= i < |s| - 2 ==> !(s[i] == '_' && s[i + 1] == '_' && s[i + 2] == '_'))
  }

  /** The grammar as rules: a non-empty well-formed string that ends in a letter or digit. */
  ghost predicate FollowsNameRules(s: string) {
    |s| > 0 && WellFormedPrefix(s) && IsAlnum(s[|s| - 1])
  }

  /** The state a well-formed prefix leaves the scanner in, read off its last characters. */
  function ExpectedState(s: string): State {
    if s == [] then ComponentStart
    else
      var c := s[|s| - 1];
      if IsAlnum(c) then InRun
      else if c == '.' then AfterDot
      else if c == '-' then AfterDash
      else if c == '_' then
        (if |s| >= 2 && s[|s| - 2] == '_' then AfterDoubleUnderscore else AfterUnderscore)
      else ComponentStart
  }

  /** The rules that `c`, appended to `p`, must obey on its own and against the end of `p`. */
  predicate MayFollow(p: string, c: char) {
    && (IsAlnum(c) || IsSeparator(c))
    && (p == [] ==> IsAlnum(c))
    && (p != [] && !IsAlnum(p[|p| - 1]) && !IsAlnum(c) ==>
          c == p[|p| - 1] && (c == '-' || c == '_'))
    && !(|p| >= 2 && p[|p| - 2] == '_' && p[|p| - 1] == '_' && c == '_')
  }

  /** How the rules for `p + [c]` follow from those for `p` and the new character. */
  lemma PrefixSnoc(p: string, c: char)
    ensures WellFormedPrefix(p + [c]) <==> WellFormedPrefix(p) && MayFollow(p, c)
  {
    var s := p + [c];
    assert forall i :: 0 <= i < |p| ==> s[i] == p[i];
    if WellFormedPrefix(p) && MayFollow(p, c) {
      forall i | 0 <= i < |s| - 1 && !IsAlnum(s[i]) && !IsAlnum(s[i + 1])
        ensures s[i] == s[i + 1] && (s[i] == '-' || s[i] == '_')
      {
        if i < |p| - 1 {
          assert s[i] == p[i] && s[i + 1] == p[i + 1];
        }
      }
      forall i | 0 <= i < |s| - 2
        ensures !(s[i] == '_' && s[i + 1] == '_' && s[i + 2] == '_')
      {
        if i < |p| - 2 {
          assert s[i] == p[i] && s[i + 1] == p[i + 1] && s[i + 2] == p[i + 2];
        }
      }
    }
    if WellFormedPrefix(s) {
      forall i | 0 <= i < |p| ensures IsAlnum(p[i]) || IsSeparator(p[i]) {
        assert s[i] == p[i];
      }
      if p != [] {
        assert s[0] == p[0];
      }
      forall i | 0 <= i < |p| - 1 && !IsAlnum(p[i]) && !IsAlnum(p[i + 1])
        ensures p[i] == p[i + 1] && (p[i] == '-' || p[i] == '_')
      {
        assert s[i] == p[i] && s[i + 1] == p[i + 1];
      }
      forall i | 0 <= i < |p| - 2
        ensures !(p[i] == '_' && p[i + 1] == '_' && p[i + 2] == '_')
      {
        assert s[i] == p[i] && s[i + 1] == p[i + 1] && s[i + 2] == p[i + 2];
      }
      assert WellFormedPrefix(p);
      assert s[|p|] == c;
      if p != [] {
        assert s[|p| - 1] == p[|p| - 1];
      }
      if |p| >= 2 {
        assert s[|p| - 2] == p[|p| - 2];
      }
    }
  }

  /** The scanner accepts exactly the well-formed prefixes, and ends in the state their tail predicts. */
  lemma {:induction false} ScanCharacterized(s: string)
    ensures Scan(s) == if WellFormedPrefix(s) then Some(ExpectedState(s)) else None
  {
    if s != [] {
      var p, c := s[..|s| - 1], s[|s| - 1];
      assert s == p + [c];
      ScanCharacterized(p);
      PrefixSnoc(p, c);
      if WellFormedPrefix(p) {
        StepFromExpected(p, c);
      }
    }
  }

  /** From the state a prefix predicts, a character is accepted exactly when it may follow. */
  lemma StepFromExpected(p: string, c: char)
    requires WellFormedPrefix(p)
    ensures Step(ExpectedState(p), c) == if MayFollow(p, c) then Some(ExpectedState(p + [c])) else None
  {
    var s := p + [c];
    assert s[|s| - 1] == c;
    if |p| >= 1 {
      assert s[|s| - 2] == p[|p| - 1];
    }
  }

  /** Scanning `x + y` is scanning `x`, then `y` from where `x` left off. */
  lemma {:induction false} RunConcat(st: Option<State>, x: string, y: string)
    ensures Run(st, x + y) == Run(Run(st, x), y)
  {
    if y == [] {
      assert x + y == x;
    } else {
      var y', c := y[..|y| - 1], y[|y| - 1];
      assert (x + y)[..|x + y| - 1] == x + y';
      RunConcat(st, x, y');
    }
  }

  /** After a letter or digit the scanner is inside a run, whatever came before. */
  lemma RunAlnum(st: State, c: char)
    requires IsAlnum(c)
    ensures Run(Some(st), [c]) == Some(InRun)
  {
    assert [c][..0] == [];
  }

  /** A string that starts with a letter or digit scans the same from any live state. */
  lemma RunFromAnyState(st: State, s: string)
    requires s != [] && IsAlnum(s[0])
    ensures Run(Some(st), s) == Run(Some(ComponentStart), s)
  {
    assert s == [s[0]] + s[1..];
    RunConcat(Some(st), [s[0]], s[1..]);
    RunConcat(Some(ComponentStart), [s[0]], s[1..]);
    RunAlnum(st, s[0]);
    RunAlnum(ComponentStart, s[0]);
  }

  /** A run of one or more '-' read inside a run leaves the scanner after a dash. */
  lemma {:induction false} RunDashes(d: string)
    requires d != [] && forall c :: c in d ==> c == '-'
    ensures Run(Some(InRun), d) == Some(AfterDash)
  {
    var p := d[..|d| - 1];
    assert d[|d| - 1] in d;
    if p != [] {
      assert forall c :: c in p ==> c in d;
      RunDashes(p);
    }
  }

  /** A run of [a-z0-9]. */
  predicate IsRun(w: string) {
    w != [] && forall c :: c in w ==> IsAlnum(c)
  }

  /** What may join two runs, or two components: '.', '_', '__', one or more '-', or '/'. */
  predicate IsJoiner(sep: string) {
    sep == "." || sep == "_" || sep == "__" || sep == "/" ||
    (sep != [] && forall c :: c in sep ==> c == '-')
  }

  /** A single run is a name. */
  lemma {:induction false} RunIsName(w: string)
    requires IsRun(w)
    ensures IsRepositoryName(w)
  {
    var p := w[..|w| - 1];
    assert w[|w| - 1] in w;
    if p == [] {
      RunAlnum(ComponentStart, w[0]);
    } else {
      assert forall c :: c in p ==> c in w;
      RunIsName(p);
    }
  }

  /** Two names joined by a separator form a name: the grammar is closed under its own joins. */
  lemma JoinIsName(a: string, sep: string, b: string)
    requires IsRepositoryName(a) && IsJoiner(sep) && IsRepositoryName(b)
    ensures IsRepositoryName(a + sep + b)
  {
    NameShape(b);
    RunConcat(Some(ComponentStart), a + sep, b);
    RunConcat(Some(ComponentStart), a, sep);
    var st := Run(Some(InRun), sep);
    if sep == "." || sep == "_" || sep == "/" {
      assert sep[..0] == [];
    } else if sep == "__" {
      assert sep[..1] == "_" && "_"[..0] == [];
    } else {
      RunDashes(sep);
    }
    assert st.Some?;
    RunFromAnyState(st.value, b);
  }

  /** Scanner and rules define the same language. */
  lemma ScannerMatchesRules(s: string)
    ensures IsRepositoryName(s) <==> FollowsNameRules(s)
  {
    ScanCharacterized(s);
  }

  /**
   * What every accepted name looks like: non-empty, no separator at either
   * end, no empty component, no character outside [a-z0-9./_-], in
   * particular no upper-case letter.
   */
  lemma NameShape(s: string)
    requires IsRepositoryName(s)
    ensures |s| > 0 && IsAlnum(s[0]) && IsAlnum(s[|s| - 1])
    ensures forall i :: 0 <= i < |s| - 1 ==> !(s[i] == '/' && s[i + 1] == '/')
    ensures forall i :: 0 <= i < |s| ==> !('A' <= s[i] <= 'Z')
    ensures forall i :: 0 <= i < |s| ==> IsAlnum(s[i]) || IsSeparator(s[i])
  {
    ScannerMatchesRules(s);
  }

  /** Names the grammar admits: two components joined by '/' or by '_'. */
  lemma AcceptedExamples()
    ensures IsRepositoryName("user/repository")
    ensures IsRepositoryName("user_repository")
  {
    RunIsName("user");
    RunIsName("repository");
    JoinIsName("user", "/", "repository");
    JoinIsName("user", "_", "repository");
    assert "user/repository" == "user" + "/" + "repository";
    assert "user_repository" == "user" + "_" + "repository";
  }

  /** Names the grammar refuses: a triple '_', an empty component, an upper-case letter, a trailing '/'. */
  lemma RejectedExamples()
    ensures !IsRepositoryName("a___b")
    ensures !IsRepositoryName("a//b")
    ensures !IsRepositoryName("User/repository")
    ensures !IsRepositoryName("repo/")
  {
    ScannerMatchesRules("a___b");
    assert "a___b"[1] == '_' && "a___b"[2] == '_' && "a___b"[3] == '_';
    ScannerMatchesRules("a//b");
    assert "a//b"[1] == '/' && "a//b"[2] == '/';
    ScannerMatchesRules("User/repository");
    ScannerMatchesRules("repo/");
  }
}
