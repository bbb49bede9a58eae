// pf enable references on macOS: the kernel counts live tokens, each token file
// records one, and pf runs while any is live.
module PfTokens {

  type Token = nat

  datatype Pf = Pf(refs: set<Token>, files: map<string, Token>)

  // What becomes of pfctl -E and of recording its token.
  datatype Outcome =
    | Refused                 // pfctl -E failed
    | NoToken(tok: Token)     // it succeeded but printed no token mvad could read
    | WriteFails(tok: Token)  // the file could not be written
    | Recorded(tok: Token)

  // The kernel never hands out a token that is live.
  predicate Mintable(s: Pf, out: Outcome) {
    out.Refused? || out.tok !in s.refs
  }

  function Enable(s: Pf, file: string, out: Outcome): Pf {
    match out
    case Refused => s
    case NoToken(tok) => s.(refs := s.refs + {tok})
    case WriteFails(tok) => s.(refs := s.refs + {tok} - {tok})
    case Recorded(tok) =>
      var refs := s.refs + {tok};
      Pf(if file in s.files && s.files[file] != tok then refs - {s.files[file]} else refs, s.files[file := tok])
  }

  function Release(s: Pf, file: string): Pf {
    if file !in s.files then s else Pf(s.refs - {s.files[file]}, s.files - {file})
  }

  predicate Running(s: Pf) {
    s.refs != {}
  }

  // ---- Without foreign interference -----------------------------------------

  ghost predicate Injective(files: map<string, Token>) {
    forall f, g :: f in files && g in files && files[f] == files[g] ==> f == g
  }

  // The live references are exactly the recorded tokens, one per file.
  ghost predicate Matched(s: Pf) {
    Injective(s.files) && forall t :: t in s.refs <==> t in s.files.Values
  }

  // An enable keeps the match, exactly when its token could be read.
  lemma {:induction false} EnableKeepsMatch(s: Pf, file: string, out: Outcome)
    requires Matched(s) && Mintable(s, out)
    ensures Matched(Enable(s, file, out)) <==> !out.NoToken?
  {
    var t := Enable(s, file, out);
    match out {
      case Refused =>
      case NoToken(tok) =>
        assert tok in t.refs && tok !in t.files.Values;
      case WriteFails(tok) =>
        assert t.refs == s.refs;
      case Recorded(tok) =>
        assert forall f :: f in s.files ==> s.files[f] in s.files.Values;
        assert forall f :: f in t.files ==> t.files[f] in t.files.Values;
        forall x ensures x in t.refs <==> x in t.files.Values {
          if x in t.refs && x != tok {
            assert x in s.files.Values;
            var f :| f in s.files && s.files[f] == x;
            assert f != file;
            assert f in t.files && t.files[f] == x;
          }
          if x in t.files.Values {
            var f :| f in t.files && t.files[f] == x;
            assert f != file ==> f in s.files && s.files[f] == x && x in s.refs;
          }
          assert file in t.files && t.files[file] == tok;
        }
    }
  }

  lemma {:induction false} ReleaseKeepsMatch(s: Pf, file: string)
    requires Matched(s)
    ensures Matched(Release(s, file))
  {
    var t := Release(s, file);
    if file in s.files {
      forall x ensures x in t.refs <==> x in t.files.Values {
        if x in t.refs {
          assert x in s.files.Values;
          var f :| f in s.files && s.files[f] == x;
          assert f in t.files;
        }
        if x in t.files.Values {
          var f :| f in t.files && t.files[f] == x;
          assert f in s.files && s.files[f] in s.files.Values;
        }
      }
    }
  }

  // A foreign pfctl -d frees every token and leaves the files.
  function Disable(s: Pf): Pf {
    s.(refs := {})
  }

  datatype Op = Enables(file: string, out: Outcome) | Drops(file: string) | ForeignDisable

  function Apply(s: Pf, op: Op): Pf {
    match op
    case Enables(file, out) => Enable(s, file, out)
    case Drops(file) => Release(s, file)
    case ForeignDisable => Disable(s)
  }

  function Run(s: Pf, ops: seq<Op>): Pf
    decreases |ops|
  {
    if ops == [] then s else Apply(Run(s, ops[..|ops| - 1]), ops[|ops| - 1])
  }

  // A run in which every mint is one the kernel could make and is readable.
  predicate Readable(s: Pf, ops: seq<Op>)
    decreases |ops|
  {
    ops == [] ||
    (Readable(s, ops[..|ops| - 1]) &&
     var op := ops[|ops| - 1];
     op.Enables? ==> Mintable(Run(s, ops[..|ops| - 1]), op.out) && !op.out.NoToken?)
  }

  lemma {:induction false} RunKeepsMatch(s: Pf, ops: seq<Op>)
    requires Matched(s) && Readable(s, ops) && ForeignDisable !in ops
    ensures Matched(Run(s, ops))
    decreases |ops|
  {
    if ops != [] {
      var before, op := ops[..|ops| - 1], ops[|ops| - 1];
      RunKeepsMatch(s, before);
      match op
      case Enables(file, out) => EnableKeepsMatch(Run(s, before), file, out);
      case Drops(file) => ReleaseKeepsMatch(Run(s, before), file);
    }
  }

  // Releasing one file leaves every other file's reference live, so pf stays on.
  lemma {:induction false} ReleaseSparesOthers(ops: seq<Op>, file: string, other: string)
    requires Readable(Pf({}, map[]), ops) && ForeignDisable !in ops
    requires file != other && other in Run(Pf({}, map[]), ops).files
    ensures var s := Run(Pf({}, map[]), ops); var t := Release(s, file);
            other in t.files && t.files[other] == s.files[other] && t.files[other] in t.refs && Running(t)
  {
    RunKeepsMatch(Pf({}, map[]), ops);
    var s := Run(Pf({}, map[]), ops);
    assert s.files[other] in s.files.Values;
  }

  // ---- A foreign pfctl -d -----------------------------------------------------

  // With one token file, what is live is what the file records, or nothing.
  ghost predicate OneFile(s: Pf, file: string) {
    s.files.Keys <= {file} && s.refs <= (if file in s.files then {s.files[file]} else {})
  }

  // For a single file a foreign disable does no harm, even when the kernel then
  // mints the recorded value again: a recorded enable leaves exactly its token.
  lemma {:induction false} OneFileSurvivesDisable(s: Pf, file: string, out: Outcome)
    requires OneFile(s, file) && Mintable(s, out) && !out.NoToken?
    ensures OneFile(Disable(s), file) && OneFile(Enable(s, file, out), file) && OneFile(Release(s, file), file)
    ensures out.Recorded? ==> Enable(s, file, out) == Pf({out.tok}, map[file := out.tok])
    ensures Release(s, file) == Pf({}, map[])
  {
  }

  predicate OnlyFile(op: Op, file: string) {
    op.ForeignDisable? || op.file == file
  }

  // Over any run on one file, foreign disables included: nothing unrecorded is
  // ever live, and releasing the file leaves nothing.
  lemma {:induction false} OneFileRun(file: string, ops: seq<Op>)
    requires Readable(Pf({}, map[]), ops) && forall i :: 0 <= i < |ops| ==> OnlyFile(ops[i], file)
    ensures OneFile(Run(Pf({}, map[]), ops), file)
    ensures Release(Run(Pf({}, map[]), ops), file) == Pf({}, map[])
    ensures ops != [] && ops[|ops| - 1].Enables? && ops[|ops| - 1].out.Recorded? ==>
              Run(Pf({}, map[]), ops).refs == {ops[|ops| - 1].out.tok}
    decreases |ops|
  {
    if ops != [] {
      var before, op := ops[..|ops| - 1], ops[|ops| - 1];
      OneFileRun(file, before);
      OneFileSurvivesDisable(Run(Pf({}, map[]), before), file, if op.Enables? then op.out else Refused);
    }
  }

  // With several files it can do harm, through a value minted again. A mint that
  // repeats what another file still records.
  predicate Repeats(s: Pf, op: Op) {
    op.Enables? && op.out.Recorded? && exists f :: f in s.files && f != op.file && s.files[f] == op.out.tok
  }

  // One value per file, and nothing live that no file records.
  ghost predicate AllRecorded(s: Pf) {
    Injective(s.files) && forall t :: t in s.refs ==> t in s.files.Values
  }

  lemma {:induction false} EnableKeepsRecorded(s: Pf, file: string, out: Outcome)
    requires AllRecorded(s) && Mintable(s, out) && !out.NoToken?
    ensures Injective(Enable(s, file, out).files) <==> !Repeats(s, Enables(file, out))
    ensures !Repeats(s, Enables(file, out)) ==> AllRecorded(Enable(s, file, out))
  {
    var t := Enable(s, file, out);
    if out.Recorded? {
      if f :| f in s.files && f != file && s.files[f] == out.tok {
        assert f in t.files && t.files[f] == t.files[file];
      }
      forall x | x in t.refs && x != out.tok ensures x in t.files.Values {
        var f :| f in s.files && s.files[f] == x;
        assert f != file;
        assert f in t.files && t.files[f] == x;
      }
      assert file in t.files && t.files[file] == out.tok;
    }
  }

  lemma {:induction false} ReleaseKeepsRecorded(s: Pf, file: string)
    requires AllRecorded(s)
    ensures AllRecorded(Release(s, file))
    ensures forall f :: f in s.files && f != file && s.files[f] in s.refs ==>
              f in Release(s, file).files && s.files[f] in Release(s, file).refs
  {
    var t := Release(s, file);
    if file in s.files {
      forall x | x in t.refs ensures x in t.files.Values {
        var f :| f in s.files && s.files[f] == x;
        assert f in t.files && t.files[f] == x;
      }
    }
  }

  // No mint of the run repeats a value another file still records.
  predicate NoneRepeats(s: Pf, ops: seq<Op>)
    decreases |ops|
  {
    ops == [] ||
    (NoneRepeats(s, ops[..|ops| - 1]) && !Repeats(Run(s, ops[..|ops| - 1]), ops[|ops| - 1]))
  }

  // Over any run of any files with foreign disables anywhere: as long as no mint
  // repeats, every live reference is recorded, by one file only, and releasing a
  // file spares every other live one.
  lemma {:induction false} DisablesAreSurvived(s: Pf, ops: seq<Op>, file: string)
    requires AllRecorded(s) && Readable(s, ops) && NoneRepeats(s, ops)
    ensures var t := Run(s, ops);
            && AllRecorded(t)
            && forall f :: f in t.files && f != file && t.files[f] in t.refs ==>
                 f in Release(t, file).files && t.files[f] in Release(t, file).refs
    decreases |ops|
  {
    if ops != [] {
      var before, op := ops[..|ops| - 1], ops[|ops| - 1];
      DisablesAreSurvived(s, before, file);
      match op
      case Enables(f, out) => EnableKeepsRecorded(Run(s, before), f, out);
      case Drops(f) => ReleaseKeepsRecorded(Run(s, before), f);
      case ForeignDisable =>
    }
    ReleaseKeepsRecorded(Run(s, ops), file);
  }

  // And a repeat is what breaks it: of a state with one value per file, a
  // recorded mint is endangered by the release of another file exactly when that
  // file records its value.
  lemma {:induction false} RepeatEndangersIff(s: Pf, file: string, tok: Token, other: string)
    requires AllRecorded(s) && tok !in s.refs && other in s.files && other != file
    ensures var t := Enable(s, file, Recorded(tok));
            t.files[file] in Release(t, other).refs <==> s.files[other] != tok
  {
    var t := Enable(s, file, Recorded(tok));
    assert t.files[other] == s.files[other];
  }

  // ---- The two ways the count goes wrong ------------------------------------

  // A token that was minted and not read: no release ever drops it.
  lemma {:induction false} UnreadTokenStaysLive(file: string, tok: Token, other: string)
    ensures var s := Run(Pf({}, map[]), [Enables(file, NoToken(tok)), Drops(other)]);
            s.files == map[] && s.refs == {tok}
  {
    var ops := [Enables(file, NoToken(tok)), Drops(other)];
    assert ops[..1] == [ops[0]] && ops[..1][..0] == [];
    assert Run(Pf({}, map[]), ops[..1]) == Pf({tok}, map[]);
  }

  // Two files, a foreign disable, and the old value again: releasing the first
  // file turns pf off while the second still counts on it.
  lemma {:induction false} RemintedTokenIsDropped(a: string, b: string, tok: Token)
    requires a != b
    ensures var ops := [Enables(a, Recorded(tok)), ForeignDisable, Enables(b, Recorded(tok)), Drops(a)];
            b in Run(Pf({}, map[]), ops).files && !Running(Run(Pf({}, map[]), ops))
  {
    var s1 := Enable(Pf({}, map[]), a, Recorded(tok));
    var ops := [Enables(a, Recorded(tok)), ForeignDisable, Enables(b, Recorded(tok)), Drops(a)];
    assert ops[..1] == [ops[0]] && ops[..2][..1] == ops[..1] && ops[..3][..2] == ops[..2] && ops[..1][..0] == [];
    assert Run(Pf({}, map[]), ops[..1]) == s1;
    assert Run(Pf({}, map[]), ops[..2]) == Disable(s1);
    assert Run(Pf({}, map[]), ops[..3]) == Enable(Disable(s1), b, Recorded(tok));
  }

  // ---- The code ---------------------------------------------------------------

  class System {
    var refs: set<Token>
    var files: map<string, Token>

    function View(): Pf
      reads this
    {
      Pf(refs, files)
    }

    method ReleaseToken(tok: Token)
      modifies this
      ensures View() == old(View()).(refs := old(refs) - {tok})
    {
      refs := refs - {tok};
    }

    method EnableFile(file: string, out: Outcome) returns (ok: bool)
      modifies this
      ensures View() == Enable(old(View()), file, out)
      ensures ok <==> out.Recorded?
    {
      var recorded := file in files;
      var prev := if recorded then files[file] else 0;
      if out.Refused? {
        return false;
      }
      refs := refs + {out.tok};
      if out.NoToken? {
        return false;
      }
      if out.WriteFails? {
        ReleaseToken(out.tok);
        return false;
      }
      files := files[file := out.tok];
      if recorded && prev != out.tok {
        ReleaseToken(prev);
      }
      return true;
    }

    method ReleaseFile(file: string)
      modifies this
      ensures View() == Release(old(View()), file)
    {
      if file !in files {
        return;
      }
      ReleaseToken(files[file]);
      files := files - {file};
    }
  }
}
