/**
 * The file-checking step (bsag/steps/jh61b/check_files.py): builds the
 * assessment pieces afresh, putting each configured piece in the live map
 * when all its student files were submitted and in the failed map
 * otherwise. Which files exist is an input: the set of existing paths.
 */
module CheckFiles {
  import opened Wrappers
  import opened Jh61bTypes
  import opened StepTypes
  import opened Context

  /** `CheckFilesConfig`: the two roots and the configured pieces, their files relative to the roots. */
  datatype CheckFilesConfig = CheckFilesConfig(graderRoot: Path, submissionRoot: Path, pieces: map<string, Piece>)

  const MissingFiles := "missing required files"

  /** The files placed under a root. */
  function Rerooted(root: Path, files: set<Path>): (r: set<Path>)
    ensures forall f :: f in files ==> JoinPath(root, f) in r
    ensures forall p :: p in r ==> exists f :: f in files && p == JoinPath(root, f)
  {
    set f | f in files :: JoinPath(root, f)
  }

  /** A configured piece whose student files all exist under `submission_root`. */
  predicate Submitted(cfg: CheckFilesConfig, existing: set<Path>, name: string)
    requires name in cfg.pieces
  {
    forall f :: f in cfg.pieces[name].studentFiles ==> JoinPath(cfg.submissionRoot, f) in existing
  }

  /** A live piece: student files under `submission_root`, assessment files under `grader_root`. */
  function LivePiece(cfg: CheckFilesConfig, name: string): (p: Piece)
    requires name in cfg.pieces
    ensures p.studentFiles == Rerooted(cfg.submissionRoot, cfg.pieces[name].studentFiles)
    ensures p.assessmentFiles == Rerooted(cfg.graderRoot, cfg.pieces[name].assessmentFiles)
  {
    Piece(Rerooted(cfg.submissionRoot, cfg.pieces[name].studentFiles),
          Rerooted(cfg.graderRoot, cfg.pieces[name].assessmentFiles))
  }

  /**
   * The pieces the step stores: every configured piece is in exactly one of
   * the two maps, live iff all its student files exist, and nothing else is in either.
   */
  function Checked(cfg: CheckFilesConfig, existing: set<Path>): (r: AssessmentPieces)
    ensures r.live.Keys + r.failed.Keys == cfg.pieces.Keys && r.live.Keys * r.failed.Keys == {}
    ensures forall n :: n in cfg.pieces ==> (n in r.live <==> Submitted(cfg, existing, n))
    ensures forall n :: n in r.live ==> r.live[n] == LivePiece(cfg, n)
    ensures forall n :: n in r.failed ==> r.failed[n] == FailedPiece(MissingFiles)
  {
    AssessmentPieces(
      map n | n in cfg.pieces && Submitted(cfg, existing, n) :: LivePiece(cfg, n),
      map n | n in cfg.pieces && !Submitted(cfg, existing, n) :: FailedPiece(MissingFiles))
  }

  /** The step passes iff every configured piece is live, that is iff every student file was submitted. */
  lemma AllLiveIffAllSubmitted(cfg: CheckFilesConfig, existing: set<Path>)
    ensures |Checked(cfg, existing).live| == |cfg.pieces| <==>
            forall n, f :: n in cfg.pieces && f in cfg.pieces[n].studentFiles ==>
                           JoinPath(cfg.submissionRoot, f) in existing
  {
    var r := Checked(cfg, existing);
    SameSizeSubset(r.live.Keys, cfg.pieces.Keys);
    if r.live.Keys != cfg.pieces.Keys {
      var n :| n in cfg.pieces.Keys - r.live.Keys;
      assert !Submitted(cfg, existing, n);
    }
  }

  /** Without configured pieces there is nothing to check, and the step passes. */
  lemma NoPiecesPasses(cfg: CheckFilesConfig, existing: set<Path>)
    requires cfg.pieces == map[]
    ensures Checked(cfg, existing) == AssessmentPieces(map[], map[])
  {
  }

  /** The loop of `CheckFiles.run` over the configured pieces, sorting each into live or failed. */
  method Partition(cfg: CheckFilesConfig, existing: set<Path>) returns (pieces: AssessmentPieces)
    ensures pieces == Checked(cfg, existing)
  {
    var live: map<string, Piece> := map[];
    var failed: map<string, FailedPiece> := map[];
    var todo := cfg.pieces.Keys;
    ghost var done: set<string> := {};
    while todo != {}
      invariant todo <= cfg.pieces.Keys && done <= cfg.pieces.Keys
      invariant forall n :: n in cfg.pieces ==> (n in done <==> n !in todo)
      invariant forall n :: n in live <==> n in done && Submitted(cfg, existing, n)
      invariant forall n :: n in failed <==> n in done && !Submitted(cfg, existing, n)
      invariant forall n :: n in live ==> live[n] == LivePiece(cfg, n)
      invariant forall n :: n in failed ==> failed[n] == FailedPiece(MissingFiles)
      decreases todo
    {
      var name :| name in todo;
      var piece := cfg.pieces[name];
      if forall f :: f in piece.studentFiles ==> JoinPath(cfg.submissionRoot, f) in existing {
        live := live[name := Piece(Rerooted(cfg.submissionRoot, piece.studentFiles),
                                   Rerooted(cfg.graderRoot, piece.assessmentFiles))];
      } else {
        failed := failed[name := FailedPiece(MissingFiles)];
      }
      todo := todo - {name};
      done := done + {name};
    }
    assert done == cfg.pieces.Keys;
    var want := Checked(cfg, existing);
    assert live.Keys == want.live.Keys && failed.Keys == want.failed.Keys;
    pieces := AssessmentPieces(live, failed);
  }

  /**
   * `CheckFiles.run`: replaces the stored pieces with `Checked` and returns
   * whether as many pieces are live as were configured.
   */
  method RunCheckFiles(io: Bsagio, cfg: CheckFilesConfig, existing: set<Path>) returns (outcome: RunResult)
    modifies io`pieces
    ensures io.pieces == Some(Checked(cfg, existing))
    ensures outcome == Returned(|Checked(cfg, existing).live| == |cfg.pieces|)
  {
    var pieces := Partition(cfg, existing);
    io.pieces := Some(pieces);
    outcome := Returned(|pieces.live| == |cfg.pieces|);
  }

  /** Student files that also exist in `grader_root`: the paths under `grader_root` the validator reports. */
  ghost predicate InGrader(cfg: CheckFilesConfig, existing: set<Path>, p: Path) {
    p in existing && exists n, f :: n in cfg.pieces && f in cfg.pieces[n].studentFiles && p == JoinPath(cfg.graderRoot, f)
  }

  /** The inner loop of the validator: one piece's student files found under `grader_root`. */
  method FilesInGrader(root: Path, files: set<Path>, existing: set<Path>) returns (bad: set<Path>)
    ensures forall p :: p in bad <==> p in existing && exists f :: f in files && p == JoinPath(root, f)
  {
    bad := {};
    var todo := files;
    while todo != {}
      invariant todo <= files
      invariant forall p :: p in bad <==> p in existing && exists f :: f in files - todo && p == JoinPath(root, f)
      decreases todo
    {
      var f :| f in todo;
      var graderFile := JoinPath(root, f);
      if graderFile in existing {
        bad := bad + {graderFile};
      }
      assert files - (todo - {f}) == (files - todo) + {f};
      todo := todo - {f};
    }
  }

  /**
   * The `pieces` validator: it rejects the configuration, with every student
   * file that also exists under `grader_root`, iff there is one.
   */
  method ValidatePieces(cfg: CheckFilesConfig, existing: set<Path>) returns (r: Result<map<string, Piece>, set<Path>>)
    ensures r.Ok? <==> forall n, f :: n in cfg.pieces && f in cfg.pieces[n].studentFiles ==>
                                      JoinPath(cfg.graderRoot, f) !in existing
    ensures r.Ok? ==> r.value == cfg.pieces
    ensures r.Err? ==> r.error != {} && forall p :: p in r.error <==> InGrader(cfg, existing, p)
  {
    var bad: set<Path> := {};
    var todo := cfg.pieces.Keys;
    ghost var done: set<string> := {};
    while todo != {}
      invariant todo <= cfg.pieces.Keys && done <= cfg.pieces.Keys
      invariant forall n :: n in cfg.pieces ==> (n in done <==> n !in todo)
      invariant forall p :: p in bad <==>
                  (p in existing && exists n, f :: n in done && f in cfg.pieces[n].studentFiles &&
                                                   p == JoinPath(cfg.graderRoot, f))
      decreases todo
    {
      var name :| name in todo;
      var found := FilesInGrader(cfg.graderRoot, cfg.pieces[name].studentFiles, existing);
      bad := bad + found;
      todo := todo - {name};
      done := done + {name};
    }
    assert done == cfg.pieces.Keys;
    if bad != {} {
      return Err(bad);
    }
    r := Ok(cfg.pieces);
  }
}
