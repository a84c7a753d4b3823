/**
 * The compilation step (bsag/steps/jh61b/compilation.py): compiles each
 * live piece's assessment files and moves every piece that does not compile
 * from the live map to the failed one. The outcome of compiling a piece is
 * an input, keyed by the piece's name.
 */
module Compilation {
  import opened Wrappers
  import opened Jh61bTypes
  import opened Subprocess
  import opened StepTypes
  import opened Context

  const TimedOutReason := "compilation timed out"
  const FailedReason := "compilation failed"

  /** A compile that neither timed out nor exited with a nonzero code. */
  predicate Compiles(c: CommandRun) {
    !c.timedOut && c.returnCode == 0
  }

  /** Why a piece that does not compile failed: a timeout takes precedence over the exit code. */
  function FailureOf(c: CommandRun): (f: FailedPiece)
    ensures c.timedOut ==> f.reason == TimedOutReason
    ensures !c.timedOut ==> f.reason == FailedReason
  {
    FailedPiece(if c.timedOut then TimedOutReason else FailedReason)
  }

  /**
   * The pieces after compiling the live ones among `done`: those that do
   * not compile leave the live map and are recorded as failed, over any
   * earlier entry of the same name.
   */
  function CompiledAmong(pieces: AssessmentPieces, compile: string -> CommandRun, done: set<string>): AssessmentPieces {
    AssessmentPieces(
      map n | n in pieces.live && (n !in done || Compiles(compile(n))) :: pieces.live[n],
      pieces.failed + map n | n in pieces.live && n in done && !Compiles(compile(n)) :: FailureOf(compile(n)))
  }

  /**
   * The pieces after compiling every live one: the ones that compile stay
   * live unchanged, the others join the failed map with their reason, and
   * the other failed entries are kept.
   */
  function Compiled(pieces: AssessmentPieces, compile: string -> CommandRun): (r: AssessmentPieces)
    ensures r.live.Keys <= pieces.live.Keys
    ensures forall n :: n in r.live ==> r.live[n] == pieces.live[n]
    ensures r.live.Keys + r.failed.Keys == pieces.live.Keys + pieces.failed.Keys
    ensures forall n :: n in pieces.live ==> (n in r.live <==> Compiles(compile(n)))
    ensures forall n :: n in pieces.live && !Compiles(compile(n)) ==> n in r.failed && r.failed[n] == FailureOf(compile(n))
    ensures forall n :: n in pieces.failed && n !in pieces.live ==> n in r.failed && r.failed[n] == pieces.failed[n]
  {
    CompiledAmong(pieces, compile, pieces.live.Keys)
  }

  /** One round of the loop, on the live map: a piece that does not compile leaves it. */
  lemma CompileStepLive(pieces: AssessmentPieces, compile: string -> CommandRun, done: set<string>, name: string)
    requires name in pieces.live && name !in done
    ensures CompiledAmong(pieces, compile, done + {name}).live ==
            if Compiles(compile(name)) then CompiledAmong(pieces, compile, done).live
            else CompiledAmong(pieces, compile, done).live - {name}
  {
  }

  /** One round of the loop, on the failed map: a piece that does not compile is recorded with its reason. */
  lemma CompileStepFailed(pieces: AssessmentPieces, compile: string -> CommandRun, done: set<string>, name: string)
    requires name in pieces.live && name !in done
    ensures CompiledAmong(pieces, compile, done + {name}).failed ==
            if Compiles(compile(name)) then CompiledAmong(pieces, compile, done).failed
            else CompiledAmong(pieces, compile, done).failed[name := FailureOf(compile(name))]
  {
  }

  /** Pieces that were failed and not live stay exactly as they were; the step only ever moves pieces one way. */
  lemma CompiledOnlyFails(pieces: AssessmentPieces, compile: string -> CommandRun)
    requires pieces.live.Keys * pieces.failed.Keys == {}
    ensures var r := Compiled(pieces, compile);
      && r.live.Keys * r.failed.Keys == {}
      && pieces.failed.Keys <= r.failed.Keys
      && forall n :: n in pieces.failed ==> r.failed[n] == pieces.failed[n]
  {
    var r := Compiled(pieces, compile);
    forall n | n in pieces.failed
      ensures n in r.failed && r.failed[n] == pieces.failed[n]
    {
      assert n !in pieces.live by {
        assert n in pieces.live ==> n in pieces.live.Keys * pieces.failed.Keys;
      }
    }
  }

  /** The step passes iff the live count is unchanged, that is iff every live piece compiles. */
  lemma SameCountIffAllCompile(pieces: AssessmentPieces, compile: string -> CommandRun)
    ensures |Compiled(pieces, compile).live| == |pieces.live| <==>
            forall n :: n in pieces.live ==> Compiles(compile(n))
  {
    var r := Compiled(pieces, compile);
    SameSizeSubset(r.live.Keys, pieces.live.Keys);
    AllKeptIffAllCompile(pieces, compile);
  }

  /** Every live piece stays live iff every live piece compiles. */
  lemma AllKeptIffAllCompile(pieces: AssessmentPieces, compile: string -> CommandRun)
    ensures Compiled(pieces, compile).live.Keys == pieces.live.Keys <==>
            forall n :: n in pieces.live ==> Compiles(compile(n))
  {
    var kept := Compiled(pieces, compile).live.Keys;
    if !forall n :: n in pieces.live ==> Compiles(compile(n)) {
      var n :| n in pieces.live && !Compiles(compile(n));
      assert n !in kept;
    }
  }

  /** Compiling a second time, with the same outcomes, changes nothing: the survivors all compiled. */
  lemma CompiledIdempotent(pieces: AssessmentPieces, compile: string -> CommandRun)
    requires pieces.live.Keys * pieces.failed.Keys == {}
    ensures Compiled(Compiled(pieces, compile), compile) == Compiled(pieces, compile)
  {
    var r := Compiled(pieces, compile);
    var rr := Compiled(r, compile);
    assert rr.live == r.live;
    assert rr.failed.Keys == r.failed.Keys;
  }

  /**
   * The loop of `Compilation.run` over a snapshot of the live pieces: each
   * is compiled exactly once, in the order `order`, and the pieces it leaves are `Compiled`.
   */
  method CompileAll(start: AssessmentPieces, compile: string -> CommandRun)
    returns (pieces: AssessmentPieces, ghost order: seq<string>)
    ensures pieces == Compiled(start, compile)
    ensures forall n :: n in start.live <==> n in order
    ensures forall i, j :: 0 <= i < j < |order| ==> order[i] != order[j]
  {
    order := [];
    var live := start.live;
    var failed := start.failed;
    var snapshot := start.live.Keys;
    ghost var done: set<string> := {};
    assert AssessmentPieces(live, failed) == CompiledAmong(start, compile, done);
    while snapshot != {}
      invariant snapshot <= start.live.Keys && done <= start.live.Keys
      invariant forall n :: n in start.live ==> (n in done <==> n !in snapshot)
      invariant forall n :: n in done <==> n in order
      invariant forall i, j :: 0 <= i < j < |order| ==> order[i] != order[j]
      invariant AssessmentPieces(live, failed) == CompiledAmong(start, compile, done)
      decreases snapshot
    {
      var name :| name in snapshot;
      CompileStepLive(start, compile, done, name);
      CompileStepFailed(start, compile, done, name);
      var result := compile(name);
      if result.timedOut {
        failed := failed[name := FailedPiece(TimedOutReason)];
        live := live - {name};
      } else if result.returnCode != 0 {
        failed := failed[name := FailedPiece(FailedReason)];
        live := live - {name};
      }
      order := order + [name];
      snapshot := snapshot - {name};
      done := done + {name};
    }
    assert done == start.live.Keys;
    pieces := AssessmentPieces(live, failed);
  }

  /**
   * `Compilation.run`: raises when there are no pieces; otherwise stores
   * the pieces `CompileAll` leaves and returns whether no piece left the live map.
   */
  method RunCompilation(io: Bsagio, compile: string -> CommandRun) returns (outcome: RunResult, ghost order: seq<string>)
    modifies io`pieces
    ensures old(io.pieces).None? ==> outcome == Raised && io.pieces == old(io.pieces)
    ensures old(io.pieces).Some? ==>
              && io.pieces == Some(Compiled(old(io.pieces).value, compile))
              && outcome == Returned(|io.pieces.value.live| == |old(io.pieces).value.live|)
              && (forall n :: n in old(io.pieces).value.live <==> n in order)
              && (forall i, j :: 0 <= i < j < |order| ==> order[i] != order[j])
  {
    order := [];
    if io.pieces.None? {
      return Raised, order;
    }
    var numLive := |io.pieces.value.live|;
    var pieces;
    pieces, order := CompileAll(io.pieces.value, compile);
    io.pieces := Some(pieces);
    outcome := Returned(numLive == |pieces.live|);
  }
}
