/** What the pipeline promises, proved of the step functions: a fatal tool
    run is the last thing a run does, a pair is always deleted before makecert
    writes it again, a new leaf pair always brings a new container, and once a
    run has completed, later runs create no key material. */
module Properties {
  import opened Naming
  import opened Steps

  // ---------------------------------------------------------------------
  // Fatal runs end the program

  /** Every fatal tool run is the last event, and only a step that did not
      succeed contains one. */
  ghost predicate FailStop(events: seq<Event>, ok: bool)
  {
    forall i :: 0 <= i < |events| && Fatal(events[i]) ==> i == |events| - 1 && !ok
  }

  lemma {:induction false} ThenFailStop(a: Step, b: Step)
    requires a.ok && FailStop(a.events, a.ok) && FailStop(b.events, b.ok)
    ensures FailStop(Then(a, b).events, Then(a, b).ok)
  {
    var ab := Then(a, b);
    assert forall j :: 0 <= j < |a.events| ==> !Fatal(a.events[j]);
    forall i | 0 <= i < |ab.events| && Fatal(ab.events[i])
      ensures i == |ab.events| - 1 && !ab.ok
    {
      assert i >= |a.events|;
      assert b.events[i - |a.events|] == ab.events[i];
    }
  }

  lemma SystemFailStop(files: set<string>, c: Command, run: ToolRun)
    ensures FailStop(System(files, c, run).events, System(files, c, run).ok)
  {
  }

  lemma ExtractAllFailStop(files: set<string>, cwd: string, ws: seq<WriteEnv>)
    requires |ws| == 3
    ensures FailStop(ExtractAll(files, cwd, ws).events, ExtractAll(files, cwd, ws).ok)
  {
    var r := ExtractAll(files, cwd, ws);
    forall i | 0 <= i < |r.events|
      ensures !Fatal(r.events[i])
    {
      assert r.events[i] in r.events;
    }
  }

  lemma RegenerateFailStop(files: set<string>, k: CertKind, run: ToolRun, stuck: set<string>)
    ensures FailStop(Regenerate(files, k, run, stuck).events, Regenerate(files, k, run, stuck).ok)
  {
    var a := Remove(files, KeyFile(k), stuck);
    var b := Then(a, Remove(a.files, CertFile(k), stuck));
    ThenFailStop(a, Remove(a.files, CertFile(k), stuck));
    SystemFailStop(b.files, Makecert(k), run);
    ThenFailStop(b, System(b.files, Makecert(k), run));
  }

  lemma ProvisionFailStop(files: set<string>, env: Env)
    ensures FailStop(Provision(files, env).events, Provision(files, env).ok)
  {
    var ca := CreateAuthority(files, env.caMakecert, env.stuck);
    if !(CaPvk in files && CaCer in files) {
      RegenerateFailStop(files, Authority, env.caMakecert, env.stuck);
    }
    if ca.ok {
      var im0 := ImportAuthority(ca.files, env.certutil);
      ImportFailStop(ca.files, env.certutil);
      ThenFailStop(ca, im0);
      var im := Then(ca, im0);
      if im.ok {
        var leaf0 := CreateLeaf(im.files, env.leafMakecert, env.stuck);
        LeafFailStop(im.files, env.leafMakecert, env.stuck);
        ThenFailStop(im, leaf0);
        var leaf := Then(im, leaf0);
        if leaf.ok {
          var pfx := ConvertToPfx(leaf.files, env.pvk2pfx);
          if Pfx !in leaf.files {
            SystemFailStop(leaf.files, Pvk2pfx, env.pvk2pfx);
          }
          ThenFailStop(leaf, pfx);
        }
      }
    }
  }

  lemma ImportFailStop(files: set<string>, runs: CertutilRuns)
    ensures FailStop(ImportAuthority(files, runs).events, ImportAuthority(files, runs).ok)
  {
    var r := ImportAuthority(files, runs);
    forall i | 0 <= i < |r.events| && Fatal(r.events[i])
      ensures i == |r.events| - 1 && !r.ok
    {
    }
  }

  lemma LeafFailStop(files: set<string>, run: ToolRun, stuck: set<string>)
    ensures FailStop(CreateLeaf(files, run, stuck).events, CreateLeaf(files, run, stuck).ok)
  {
    if !(SpcPvk in files && SpcCer in files) {
      var g := Regenerate(files, Leaf, run, stuck);
      RegenerateFailStop(files, Leaf, run, stuck);
      if g.ok {
        ThenFailStop(g, Remove(g.files, Pfx, stuck));
      }
    }
  }

  lemma CopyAndSignFailStop(files: set<string>, selfname: string, copied: bool, status: int)
    requires TargetLength(selfname)
    ensures FailStop(CopyAndSign(files, selfname, copied, status).events, CopyAndSign(files, selfname, copied, status).ok)
  {
    if copied && |selfname| >= 4 {
      var out := SignedName(selfname);
      var c := Step(files + {out}, [Copy(selfname, out)], true);
      SystemFailStop(files + {out}, Signtool(out), ToolRun(status, {}));
      ThenFailStop(c, SignCode(files + {out}, out, status));
    }
  }

  /** Any non-zero status of makecert, pvk2pfx, signtool or a certutil
      -addstore ends the run with exit code 1 and without the confirmation
      line: nothing happens after it. "signed:" is printed only when no
      guarded tool run failed. */
  lemma {:induction false} FatalRunIsLast(files: set<string>, env: Env)
    requires ValidEnv(env)
    ensures var r := Pass(files, env);
      forall i :: 0 <= i < |r.events| && Fatal(r.events[i]) ==>
        i == |r.events| - 1 && r.exitCode == 1 && r.message.None?
    ensures var r := Pass(files, env);
      r.message.Some? ==> r.exitCode == 0 && forall e :: e in r.events ==> !Fatal(e)
  {
    var r := Pass(files, env);
    if env.elevated && env.cwd.Some? {
      var x := ExtractAll(files, env.cwd.value, env.extracts);
      ExtractAllFailStop(files, env.cwd.value, env.extracts);
      if x.ok {
        var p0 := Provision(x.files, env);
        ProvisionFailStop(x.files, env);
        ThenFailStop(x, p0);
        var p := Then(x, p0);
        if p.ok {
          var s0 := CopyAndSign(p.files, Target(env.argv), env.copied, env.signtool);
          CopyAndSignFailStop(p.files, Target(env.argv), env.copied, env.signtool);
          ThenFailStop(p, s0);
        }
      }
      assert FailStop(r.events, r.exitCode == 0);
    }
  }

  // ---------------------------------------------------------------------
  // A pair is never half reused

  /** Every makecert run comes right after the unlinks of both files it writes. */
  ghost predicate PairsCleared(events: seq<Event>)
  {
    forall i :: 0 <= i < |events| && events[i].Exec? && events[i].cmd.Makecert? ==>
      2 <= i && events[i - 2] == Unlink(KeyFile(events[i].cmd.kind))
      && events[i - 1] == Unlink(CertFile(events[i].cmd.kind))
  }

  lemma {:induction false} ConcatPairsCleared(a: seq<Event>, b: seq<Event>)
    requires PairsCleared(a) && PairsCleared(b)
    ensures PairsCleared(a + b)
  {
    var ab := a + b;
    forall i | 0 <= i < |ab| && ab[i].Exec? && ab[i].cmd.Makecert?
      ensures 2 <= i && ab[i - 2] == Unlink(KeyFile(ab[i].cmd.kind))
        && ab[i - 1] == Unlink(CertFile(ab[i].cmd.kind))
    {
      if i < |a| {
        assert ab[i] == a[i] && ab[i - 1] == a[i - 1] && ab[i - 2] == a[i - 2];
      } else {
        var j := i - |a|;
        assert ab[i] == b[j] && 2 <= j;
        assert ab[i - 1] == b[j - 1] && ab[i - 2] == b[j - 2];
      }
    }
  }

  /** Events without any makecert run clear the pairs trivially. */
  lemma NoMakecertPairsCleared(events: seq<Event>)
    requires forall e :: e in events ==> !(e.Exec? && e.cmd.Makecert?)
    ensures PairsCleared(events)
  {
    forall i | 0 <= i < |events|
      ensures !(events[i].Exec? && events[i].cmd.Makecert?)
    {
      assert events[i] in events;
    }
  }

  lemma RegenerateEvents(files: set<string>, k: CertKind, run: ToolRun, stuck: set<string>)
    ensures Regenerate(files, k, run, stuck).events ==
      [Unlink(KeyFile(k)), Unlink(CertFile(k)), Exec(Makecert(k), run.status)]
  {
  }

  lemma AuthorityPairsCleared(files: set<string>, run: ToolRun, stuck: set<string>)
    ensures PairsCleared(CreateAuthority(files, run, stuck).events)
  {
    if !(CaPvk in files && CaCer in files) {
      RegenerateEvents(files, Authority, run, stuck);
    }
  }

  lemma LeafPairsCleared(files: set<string>, run: ToolRun, stuck: set<string>)
    ensures PairsCleared(CreateLeaf(files, run, stuck).events)
  {
    if !(SpcPvk in files && SpcCer in files) {
      var g := Regenerate(files, Leaf, run, stuck);
      RegenerateEvents(files, Leaf, run, stuck);
      ConcatPairsCleared(g.events, [Unlink(Pfx)]);
    }
  }

  lemma ProvisionPairsCleared(files: set<string>, env: Env)
    ensures PairsCleared(Provision(files, env).events)
  {
    var ca := CreateAuthority(files, env.caMakecert, env.stuck);
    AuthorityPairsCleared(files, env.caMakecert, env.stuck);
    if ca.ok {
      var im0 := ImportAuthority(ca.files, env.certutil);
      NoMakecertPairsCleared(im0.events);
      ConcatPairsCleared(ca.events, im0.events);
      var im := Then(ca, im0);
      if im.ok {
        var leaf0 := CreateLeaf(im.files, env.leafMakecert, env.stuck);
        LeafPairsCleared(im.files, env.leafMakecert, env.stuck);
        ConcatPairsCleared(im.events, leaf0.events);
        var leaf := Then(im, leaf0);
        if leaf.ok {
          var pfx := ConvertToPfx(leaf.files, env.pvk2pfx);
          NoMakecertPairsCleared(pfx.events);
          ConcatPairsCleared(leaf.events, pfx.events);
        }
      }
    }
  }

  /** Whenever makecert runs, both files of the pair it writes were deleted
      just before it, so a key and a certificate from different runs never
      end up side by side. */
  lemma {:induction false} PairDeletedBeforeMakecert(files: set<string>, env: Env)
    requires ValidEnv(env)
    ensures PairsCleared(Pass(files, env).events)
  {
    if env.elevated && env.cwd.Some? {
      var x := ExtractAll(files, env.cwd.value, env.extracts);
      NoMakecertPairsCleared(x.events);
      if x.ok {
        var p0 := Provision(x.files, env);
        ProvisionPairsCleared(x.files, env);
        ConcatPairsCleared(x.events, p0.events);
        var p := Then(x, p0);
        if p.ok {
          var s0 := CopyAndSign(p.files, Target(env.argv), env.copied, env.signtool);
          NoMakecertPairsCleared(s0.events);
          ConcatPairsCleared(p.events, s0.events);
        }
      }
    } else {
      NoMakecertPairsCleared(Pass(files, env).events);
    }
  }

  // ---------------------------------------------------------------------
  // A new leaf pair always brings a new container

  /** Provisioning that got through every step is the four steps in order. */
  lemma ProvisionCompleted(files: set<string>, env: Env)
    requires Provision(files, env).ok
    ensures var ca := CreateAuthority(files, env.caMakecert, env.stuck);
      var im := Then(ca, ImportAuthority(ca.files, env.certutil));
      var leaf := Then(im, CreateLeaf(im.files, env.leafMakecert, env.stuck));
      ca.ok && im.ok && leaf.ok && Provision(files, env) == Then(leaf, ConvertToPfx(leaf.files, env.pvk2pfx))
  {
  }

  /** When provisioning starts without a complete leaf pair and succeeds, its
      last two events delete the old container and build a new one. */
  lemma LeafRenewalRebuildsContainer(files: set<string>, env: Env)
    requires Provision(files, env).ok
    requires !(Pair(Leaf) <= files) && Pfx !in env.stuck
    ensures var r := Provision(files, env);
      |r.events| >= 2 && r.events[|r.events| - 2] == Unlink(Pfx)
      && r.events[|r.events| - 1] == Exec(Pvk2pfx, 0)
  {
    ProvisionCompleted(files, env);
    var ca := CreateAuthority(files, env.caMakecert, env.stuck);
    var im := Then(ca, ImportAuthority(ca.files, env.certutil));
    var leaf0 := CreateLeaf(im.files, env.leafMakecert, env.stuck);
    var leaf := Then(im, leaf0);
    var pfx := ConvertToPfx(leaf.files, env.pvk2pfx);
    assert im.files - Pair(Authority) == files - Pair(Authority);
    assert SpcPvk !in Pair(Authority) && SpcCer !in Pair(Authority);
    assert !(Pair(Leaf) <= im.files);
    var g := Regenerate(im.files, Leaf, env.leafMakecert, env.stuck);
    assert leaf0 == Then(g, Remove(g.files, Pfx, env.stuck));
    assert Pfx !in leaf.files;
    assert pfx.events == [Exec(Pvk2pfx, 0)];
    assert leaf.events[|leaf.events| - 1] == Unlink(Pfx);
  }

  /** When the unlink of the container fails, a new leaf pair does not bring
      a new container: provisioning ends with that unlink, pvk2pfx never runs,
      and the container built from the old leaf pair stays. */
  lemma LeafRenewalKeepsStuckContainer(files: set<string>, env: Env)
    requires Provision(files, env).ok
    requires !(Pair(Leaf) <= files) && Pfx in env.stuck && Pfx in files
    ensures var r := Provision(files, env);
      |r.events| >= 1 && r.events[|r.events| - 1] == Unlink(Pfx) && Pfx in r.files
      && NoContainerRun(r.events)
  {
    ProvisionCompleted(files, env);
    NoContainerRunBeforeConversion(files, env);
    var ca := CreateAuthority(files, env.caMakecert, env.stuck);
    var im := Then(ca, ImportAuthority(ca.files, env.certutil));
    var leaf0 := CreateLeaf(im.files, env.leafMakecert, env.stuck);
    var leaf := Then(im, leaf0);
    assert im.files - Pair(Authority) == files - Pair(Authority);
    assert SpcPvk !in Pair(Authority) && SpcCer !in Pair(Authority) && Pfx !in Pair(Authority);
    assert !(Pair(Leaf) <= im.files) && Pfx in im.files;
    var g := Regenerate(im.files, Leaf, env.leafMakecert, env.stuck);
    assert leaf0 == Then(g, Remove(g.files, Pfx, env.stuck));
    assert Pfx in leaf.files;
    assert ConvertToPfx(leaf.files, env.pvk2pfx) == Step(leaf.files, [], true);
    assert leaf.events[|leaf.events| - 1] == Unlink(Pfx);
  }

  /** No event of the log is a pvk2pfx run. */
  predicate NoContainerRun(events: seq<Event>)
  {
    forall e :: e in events ==> !(e.Exec? && e.cmd.Pvk2pfx?)
  }

  lemma CreateStepsRunNoPvk2pfx(files: set<string>, run: ToolRun, stuck: set<string>)
    ensures NoContainerRun(CreateAuthority(files, run, stuck).events)
    ensures NoContainerRun(CreateLeaf(files, run, stuck).events)
  {
    if !(CaPvk in files && CaCer in files) {
      RegenerateEvents(files, Authority, run, stuck);
    }
    if !(SpcPvk in files && SpcCer in files) {
      RegenerateEvents(files, Leaf, run, stuck);
    }
  }

  /** The three steps before the container step never run pvk2pfx. */
  lemma NoContainerRunBeforeConversion(files: set<string>, env: Env)
    ensures var ca := CreateAuthority(files, env.caMakecert, env.stuck);
      var im := Then(ca, ImportAuthority(ca.files, env.certutil));
      var leaf := Then(im, CreateLeaf(im.files, env.leafMakecert, env.stuck));
      NoContainerRun(leaf.events)
  {
    var ca := CreateAuthority(files, env.caMakecert, env.stuck);
    CreateStepsRunNoPvk2pfx(files, env.caMakecert, env.stuck);
    var im0 := ImportAuthority(ca.files, env.certutil);
    assert forall e :: e in im0.events ==> e.Exec? && e.cmd.Certutil?;
    var im := Then(ca, im0);
    assert NoContainerRun(im.events);
    CreateStepsRunNoPvk2pfx(im.files, env.leafMakecert, env.stuck);
  }

  /** When provisioning starts with the complete leaf pair and a container,
      it runs no pvk2pfx and leaves all three files in place. */
  lemma LeafKeptKeepsContainer(files: set<string>, env: Env)
    requires Pair(Leaf) <= files && Pfx in files
    ensures var r := Provision(files, env);
      (forall e :: e in r.events ==> !(e.Exec? && e.cmd.Pvk2pfx?))
      && Pair(Leaf) + {Pfx} <= r.files
  {
    var r := Provision(files, env);
    var ca := CreateAuthority(files, env.caMakecert, env.stuck);
    assert SpcPvk !in Pair(Authority) && SpcCer !in Pair(Authority) && Pfx !in Pair(Authority);
    assert Pair(Leaf) <= ca.files && Pfx in ca.files;
    assert forall e :: e in ca.events ==> !(e.Exec? && e.cmd.Pvk2pfx?) by {
      if !(CaPvk in files && CaCer in files) {
        RegenerateEvents(files, Authority, env.caMakecert, env.stuck);
      }
    }
    if ca.ok {
      var im0 := ImportAuthority(ca.files, env.certutil);
      var im := Then(ca, im0);
      assert forall e :: e in im0.events ==> e.Exec? && e.cmd.Certutil?;
      assert forall e :: e in im.events ==> !(e.Exec? && e.cmd.Pvk2pfx?);
      if im.ok {
        var leaf0 := CreateLeaf(im.files, env.leafMakecert, env.stuck);
        assert leaf0 == Step(im.files, [], true);
        var leaf := Then(im, leaf0);
        assert leaf.events == im.events && leaf.ok && leaf.files == im.files;
        var pfx := ConvertToPfx(leaf.files, env.pvk2pfx);
        assert pfx == Step(leaf.files, [], true);
        assert r == Then(leaf, pfx);
        assert r.events == im.events;
      } else {
        assert r == im;
      }
    } else {
      assert r == ca;
    }
  }

  // ---------------------------------------------------------------------
  // A second run regenerates nothing

  /** A run that completed (elevated, exit code 0) leaves every artifact in
      the directory: the three tools, both pairs and the container. */
  lemma {:induction false} CompletedRunProvisions(files: set<string>, env: Env)
    requires ValidEnv(env) && env.elevated
    requires Pass(files, env).exitCode == 0
    ensures |Target(env.argv)| >= 4
    ensures Provisioned(Pass(files, env).files)
    ensures Pass(files, env).message == Some(SignedMessage(SignedName(Target(env.argv))))
  {
    PassCompleted(files, env);
    var x := ExtractAll(files, env.cwd.value, env.extracts);
    var p0 := Provision(x.files, env);
    var p := Then(x, p0);
    var s0 := CopyAndSign(p.files, Target(env.argv), env.copied, env.signtool);
    ProvisionKeepsTools(x.files, p0.files);
    assert p.files <= s0.files;
  }

  /** Provisioning that succeeded after the tools were extracted leaves every
      artifact. */
  lemma ProvisionKeepsTools(extracted: set<string>, provisioned: set<string>)
    requires ToolFiles <= extracted && KeyMaterial <= provisioned
    requires provisioned - KeyMaterial == extracted - KeyMaterial
    ensures Provisioned(provisioned)
  {
    ToolFilesAreNotKeyMaterial();
    assert ToolFiles <= extracted - KeyMaterial;
  }

  /** An elevated run that exits with 0 got through all three phases. */
  lemma PassCompleted(files: set<string>, env: Env)
    requires ValidEnv(env) && env.elevated
    requires Pass(files, env).exitCode == 0
    ensures env.cwd.Some? && |Target(env.argv)| >= 4
    ensures var x := ExtractAll(files, env.cwd.value, env.extracts);
      var p := Then(x, Provision(x.files, env));
      var s := Then(p, CopyAndSign(p.files, Target(env.argv), env.copied, env.signtool));
      x.ok && p.ok && s.ok
      && Pass(files, env) == Outcome(s.files, s.events, 0, Some(SignedMessage(SignedName(Target(env.argv)))))
  {
  }

  /** The container step is idempotent: after it succeeded once, running it
      again does nothing. */
  lemma ConvertToPfxIdempotent(files: set<string>, first: ToolRun, second: ToolRun)
    requires ConvertToPfx(files, first).ok
    ensures var p := ConvertToPfx(files, first);
      ConvertToPfx(p.files, second) == Step(p.files, [], true)
  {
  }

  /** Provisioning again after provisioning succeeded runs neither makecert
      nor pvk2pfx and leaves the directory as it is. */
  lemma ProvisionIdempotent(files: set<string>, env: Env, again: Env)
    requires Provision(files, env).ok
    ensures var p := Provision(files, env);
      var q := Provision(p.files, again);
      q.files == p.files && forall e :: e in q.events ==> !Generation(e)
  {
    var p := Provision(files, env);
    ProvisionedProvisionRegeneratesNothing(p.files, again);
  }

  lemma ProvisionedProvisionRegeneratesNothing(files: set<string>, env: Env)
    requires KeyMaterial <= files
    ensures var q := Provision(files, env);
      q.files == files && forall e :: e in q.events ==> e.Exec? && e.cmd.Certutil?
  {
    assert CaPvk in files && CaCer in files && SpcPvk in files && SpcCer in files && Pfx in files;
    var q := Provision(files, env);
    var ca := CreateAuthority(files, env.caMakecert, env.stuck);
    assert ca == Step(files, [], true);
    var im0 := ImportAuthority(files, env.certutil);
    assert forall e :: e in im0.events ==> e.Exec? && e.cmd.Certutil?;
    var im := Then(ca, im0);
    assert im.events == im0.events && im.files == files;
    if im.ok {
      assert CreateLeaf(files, env.leafMakecert, env.stuck) == Step(files, [], true);
      var leaf := Then(im, Step(files, [], true));
      assert leaf.events == im.events && leaf.files == files;
      assert ConvertToPfx(files, env.pvk2pfx) == Step(files, [], true);
      assert q == Then(leaf, Step(files, [], true));
    } else {
      assert q == im;
    }
  }


  /** Provisioning with the authority pair present starts with the -delstore
      from the Root store. */
  lemma ProvisionStartsWithCertutil(files: set<string>, env: Env)
    requires Pair(Authority) <= files
    ensures var q := Provision(files, env);
      |q.events| > 0 && q.events[0] == Exec(Certutil(DelStore, Root), env.certutil.delRoot)
  {
    var ca := CreateAuthority(files, env.caMakecert, env.stuck);
    assert ca == Step(files, [], true);
    var im0 := ImportAuthority(files, env.certutil);
    var im := Then(ca, im0);
    assert im.events == im0.events;
    if im.ok {
      var leaf := Then(im, CreateLeaf(im.files, env.leafMakecert, env.stuck));
      assert leaf.events[0] == im0.events[0];
      var q := Then(leaf, ConvertToPfx(leaf.files, env.pvk2pfx));
      assert q.events[0] == leaf.events[0];
    }
  }

  /** Copying and signing adds at most the signed copy and runs only signtool. */
  lemma CopyAndSignTouchesOnlyCopy(files: set<string>, selfname: string, copied: bool, status: int)
    requires TargetLength(selfname)
    ensures var s := CopyAndSign(files, selfname, copied, status);
      files <= s.files <= files + SignedCopies(selfname)
      && forall e :: e in s.events ==> e.Copy? || (e.Exec? && e.cmd.Signtool?)
  {
  }

  lemma ConcatNoGeneration(a: seq<Event>, b: seq<Event>)
    requires forall e :: e in a ==> !Generation(e)
    requires forall e :: e in b ==> !Generation(e)
    ensures forall e :: e in a + b ==> !Generation(e)
  {
  }

  /** A run in a directory that already holds every artifact runs neither
      makecert nor pvk2pfx, deletes nothing, and adds at most the signed copy.
      certutil still runs: an elevated run that gets its working directory
      starts with the -delstore from the Root store. */
  lemma {:induction false} ProvisionedRunRegeneratesNothing(files: set<string>, env: Env)
    requires ValidEnv(env) && Provisioned(files)
    ensures var r := Pass(files, env);
      files <= r.files <= files + SignedCopies(Target(env.argv))
      && forall e :: e in r.events ==> !Generation(e)
    ensures env.elevated && env.cwd.Some? ==>
      Pass(files, env).events[0] == Exec(Certutil(DelStore, Root), env.certutil.delRoot)
  {
    var r := Pass(files, env);
    if env.elevated && env.cwd.Some? {
      var x := ExtractAll(files, env.cwd.value, env.extracts);
      assert x == Step(files, [], true);
      var p0 := Provision(files, env);
      ProvisionedProvisionRegeneratesNothing(files, env);
      ProvisionStartsWithCertutil(files, env);
      var p := Then(x, p0);
      assert p.events == p0.events && p.files == files;
      if p.ok {
        var s0 := CopyAndSign(files, Target(env.argv), env.copied, env.signtool);
        CopyAndSignTouchesOnlyCopy(files, Target(env.argv), env.copied, env.signtool);
        ConcatNoGeneration(p.events, s0.events);
        var s := Then(p, s0);
        assert s.events[0] == p.events[0];
        assert r.files == s.files && r.events == s.events;
      } else {
        assert r == Abort(p);
      }
    }
  }

  /** Once the directory holds every artifact, no later run, whatever fails in
      it, runs makecert or pvk2pfx, and every artifact stays. */
  lemma {:induction false} LaterRunsRegenerateNothing(files: set<string>, envs: seq<Env>)
    requires forall i :: 0 <= i < |envs| ==> ValidEnv(envs[i])
    requires Provisioned(files)
    ensures Provisioned(Runs(files, envs).files)
    ensures forall e :: e in Runs(files, envs).events ==> !Generation(e)
    decreases |envs|
  {
    if envs != [] {
      var p := Pass(files, envs[0]);
      ProvisionedRunRegeneratesNothing(files, envs[0]);
      LaterRunsRegenerateNothing(p.files, envs[1..]);
    }
  }

  /** After one completed run, the runs that follow it never create key
      material again. */
  lemma SecondRunRegeneratesNothing(files: set<string>, first: Env, later: seq<Env>)
    requires ValidEnv(first) && first.elevated && Pass(files, first).exitCode == 0
    requires forall i :: 0 <= i < |later| ==> ValidEnv(later[i])
    ensures forall e :: e in Runs(Pass(files, first).files, later).events ==> !Generation(e)
  {
    CompletedRunProvisions(files, first);
    LaterRunsRegenerateNothing(Pass(files, first).files, later);
  }

  /** An elevated run with an empty target name provisions as usual, then
      stops with exit code 1 where the name is formatted: nothing is copied or
      signed and no confirmation is printed. */
  lemma EmptyTargetAborts(files: set<string>, env: Env)
    requires ValidEnv(env) && env.elevated && |Target(env.argv)| == 0
    ensures var r := Pass(files, env);
      r.exitCode == 1 && r.message.None?
      && r.files - Artifacts == files - Artifacts
  {
    var r := Pass(files, env);
    if env.cwd.Some? {
      var x := ExtractAll(files, env.cwd.value, env.extracts);
      SameOutside(x.files, files, ToolFiles, KeyMaterial);
      if x.ok {
        var p0 := Provision(x.files, env);
        SameOutside(p0.files, x.files, KeyMaterial, ToolFiles);
        var p := Then(x, p0);
        if p.ok {
          assert CopyAndSign(p.files, Target(env.argv), env.copied, env.signtool) == Step(p.files, [], false);
          assert r == Abort(Then(p, Step(p.files, [], false)));
        } else {
          assert r == Abort(p);
        }
      } else {
        assert r == Abort(x);
      }
    }
  }

  /** Two directories that agree outside s agree outside s and t together. */
  lemma SameOutside(a: set<string>, b: set<string>, s: set<string>, t: set<string>)
    requires a - s == b - s
    ensures a - (s + t) == b - (s + t) && a - (t + s) == b - (t + s)
  {
    assert a - (s + t) == (a - s) - t;
    assert b - (s + t) == (b - s) - t;
    assert s + t == t + s;
  }

  // ---------------------------------------------------------------------
  // Whatever an aborted run left behind, a run without failures completes

  /** An environment in which no call fails. */
  predicate Healthy(env: Env)
  {
    && |env.argv| >= 1 && |Target(env.argv)| >= 4
    && env.elevated && env.cwd.Some? && |env.extracts| == 3
    && (forall w :: w in env.extracts ==>
          w.found && 0 < w.size && w.size as int <= 0x7FFF_FFFF
          && w.openOk && w.written as int == w.size as int && w.closeOk)
    && env.caMakecert.status == 0
    && env.certutil.addRoot == 0 && env.certutil.addPublisher == 0
    && env.leafMakecert.status == 0 && env.pvk2pfx.status == 0
    && env.copied && env.signtool == 0
  }

  /** From any directory, including one holding half a pair or a stale
      container from an aborted run, a run in which no call fails completes,
      prints the confirmation line and leaves every artifact in place. */
  lemma HealthyRunCompletes(files: set<string>, env: Env)
    requires ValidEnv(env) && Healthy(env)
    ensures Pass(files, env).exitCode == 0
    ensures Pass(files, env).message == Some(SignedMessage(SignedName(Target(env.argv))))
    ensures Provisioned(Pass(files, env).files)
  {
    ToolFileNamesOfTags();
    assert env.extracts[0] in env.extracts && env.extracts[1] in env.extracts && env.extracts[2] in env.extracts;
    var x := ExtractAll(files, env.cwd.value, env.extracts);
    assert x.ok;
    var p0 := Provision(x.files, env);
    var ca := CreateAuthority(x.files, env.caMakecert, env.stuck);
    var im := Then(ca, ImportAuthority(ca.files, env.certutil));
    var leaf := Then(im, CreateLeaf(im.files, env.leafMakecert, env.stuck));
    assert p0 == Then(leaf, ConvertToPfx(leaf.files, env.pvk2pfx));
    assert p0.ok;
    CompletedRunProvisions(files, env);
  }
}
