/** The program as it runs: one object holds the working directory and the
    log of what the process did to it, and each function of the program is a
    method that changes them step by step (unlink, then system, then unlink
    again), proved to do exactly what the matching step function says. */
module SelfSign {
  import opened Naming
  import opened Steps

  lemma AppendAssoc(a: seq<Event>, b: seq<Event>, c: seq<Event>)
    ensures a + b + c == a + (b + c)
  {
  }

  class WorkDir {
    /** The entries of the working directory. */
    var files: set<string>
    /** What the process has done so far, in order. */
    var events: seq<Event>

    constructor (initial: set<string>)
      ensures files == initial && events == []
    {
      files := initial;
      events := [];
    }

    /** exists(path): access(path, 0) succeeds iff the entry is present. */
    predicate Exists(name: string): (present: bool)
      reads this
      ensures present <==> name in files
    {
      name in files
    }

    /** unlink(name): the result is ignored; a stuck entry (read-only, in
        use, a directory) stays where it is. */
    method Unlink(name: string, stuck: set<string>)
      modifies this
      ensures files == if name in stuck then old(files) else old(files) - {name}
      ensures events == old(events) + [Event.Unlink(name)]
    {
      if name !in stuck {
        files := files - {name};
      }
      events := events + [Event.Unlink(name)];
    }

    /** system(command line of c): the tool runs and its files appear. */
    method System(c: Command, run: ToolRun) returns (status: int)
      modifies this
      ensures status == run.status
      ensures files == old(files) + Created(c, run)
      ensures events == old(events) + [Exec(c, run.status)]
    {
      files := files + Created(c, run);
      events := events + [Exec(c, run.status)];
      status := run.status;
    }

    /** write_fully(path, data, bytes): ok is false where a fatal_if fires. */
    method WriteFully(name: string, path: string, bytes: int64, openOk: bool, written: int32, closeOk: bool)
      returns (ok: bool)
      modifies this
      ensures var outcome := Steps.WriteFully(bytes, openOk, written, closeOk);
        var created := outcome != BadSize && outcome != OpenFailed;
        ok == (outcome == Written)
        && files == old(files) + (if created then {name} else {})
        && events == old(events) + (if created then [Write(path)] else [])
    {
      if !(0 < bytes && bytes as int <= 0xFFFF_FFFF) {
        return false;
      }
      if !openOk {
        return false;
      }
      files := files + {name};
      events := events + [Write(path)];
      if written as int != bytes as int {
        return false;
      }
      if !closeOk {
        return false;
      }
      return true;
    }

    /** extract(tag) */
    method Extract(cwd: string, tag: string, w: WriteEnv) returns (ok: bool)
      requires |tag| >= 4
      modifies this
      ensures var r := ExtractTool(old(files), cwd, tag, w);
        files == r.files && events == old(events) + r.events && ok == r.ok
    {
      var name := ToolFileName(tag);
      var path := ExtractPath(cwd, tag);
      if !Exists(name) {
        if !w.found {
          return false;
        }
        ok := WriteFully(name, path, w.size, w.openOk, w.written, w.closeOk);
        return;
      }
      return true;
    }

    /** create_selfsign_certificate_authority() */
    method CreateCertificateAuthority(makecert: ToolRun, stuck: set<string>) returns (ok: bool)
      modifies this
      ensures var r := CreateAuthority(old(files), makecert, stuck);
        files == r.files && events == old(events) + r.events && ok == r.ok
    {
      ok := true;
      if !Exists(CaPvk) || !Exists(CaCer) {
        Unlink(CaPvk, stuck);
        Unlink(CaCer, stuck);
        var status := System(Makecert(Authority), makecert);
        ok := status == 0;
      }
    }

    /** import_certificate_authority() */
    method ImportCertificateAuthority(runs: CertutilRuns) returns (ok: bool)
      modifies this
      ensures var r := ImportAuthority(old(files), runs);
        files == r.files && events == old(events) + r.events && ok == r.ok
    {
      var _ := System(Certutil(DelStore, Root), ToolRun(runs.delRoot, {}));
      var _ := System(Certutil(DelStore, TrustedPublisher), ToolRun(runs.delPublisher, {}));
      var status := System(Certutil(AddStore, Root), ToolRun(runs.addRoot, {}));
      if status != 0 {
        return false;
      }
      status := System(Certutil(AddStore, TrustedPublisher), ToolRun(runs.addPublisher, {}));
      ok := status == 0;
    }

    /** create_selfsign_certificate() */
    method CreateCertificate(makecert: ToolRun, stuck: set<string>) returns (ok: bool)
      modifies this
      ensures var r := CreateLeaf(old(files), makecert, stuck);
        files == r.files && events == old(events) + r.events && ok == r.ok
    {
      ok := true;
      if !Exists(SpcPvk) || !Exists(SpcCer) {
        Unlink(SpcPvk, stuck);
        Unlink(SpcCer, stuck);
        var status := System(Makecert(Leaf), makecert);
        if status != 0 {
          return false;
        }
        Unlink(Pfx, stuck);
      }
    }

    /** convert_certificate_pvk_into_pfx() */
    method ConvertPvkIntoPfx(pvk2pfx: ToolRun) returns (ok: bool)
      modifies this
      ensures var r := ConvertToPfx(old(files), pvk2pfx);
        files == r.files && events == old(events) + r.events && ok == r.ok
    {
      ok := true;
      if !Exists(Pfx) {
        var status := System(Pvk2pfx, pvk2pfx);
        ok := status == 0;
      }
    }

    /** sing_code(path) */
    method SignCode(path: string, status: int) returns (ok: bool)
      modifies this
      ensures var r := Steps.SignCode(old(files), path, status);
        files == r.files && events == old(events) + r.events && ok == r.ok
    {
      var s := System(Signtool(path), ToolRun(status, {}));
      ok := s == 0;
    }

    /** CopyFile(src, dst, false): the copy overwrites any existing dst. */
    method CopyFile(src: string, dst: string, copied: bool) returns (ok: bool)
      modifies this
      ensures ok == copied
      ensures files == old(files) + (if copied then {dst} else {})
      ensures events == old(events) + (if copied then [Copy(src, dst)] else [])
    {
      if copied {
        files := files + {dst};
        events := events + [Copy(src, dst)];
      }
      ok := copied;
    }

    /** Lines 52-54 of main: extract the three embedded tools. */
    method ExtractTools(cwd: string, ws: seq<WriteEnv>) returns (ok: bool)
      requires |ws| == 3
      modifies this
      ensures var r := ExtractAll(old(files), cwd, ws);
        files == r.files && events == old(events) + r.events && ok == r.ok
    {
      ToolFileNamesOfTags();
      ok := Extract(cwd, Pvk2pfxTag, ws[0]);
      if !ok {
        return;
      }
      ok := Extract(cwd, MakecertTag, ws[1]);
      if !ok {
        return;
      }
      ok := Extract(cwd, SigntoolTag, ws[2]);
    }

    /** Lines 59-66 of main: copy the target to its signed name and sign the
        copy; str rejects an empty name fatally. */
    method CopyAndSign(selfname: string, copied: bool, status: int) returns (ok: bool)
      requires TargetLength(selfname)
      modifies this
      ensures var r := Steps.CopyAndSign(old(files), selfname, copied, status);
        files == r.files && events == old(events) + r.events && ok == r.ok
    {
      if |selfname| == 0 {
        return false;
      }
      var signedExe := SignedName(selfname);
      ok := CopyFile(selfname, signedExe, copied);
      if !ok {
        return;
      }
      ok := SignCode(signedExe, status);
    }

    /** main: returns the exit code and the confirmation line, if printed. */
    method Run(env: Env) returns (exitCode: int, message: Option<string>)
      requires ValidEnv(env)
      modifies this
      ensures var r := Pass(old(files), env);
        files == r.files && events == old(events) + r.events
        && exitCode == r.exitCode && message == r.message
    {
      if !env.elevated {
        return env.relaunched, None;
      }
      if env.cwd.None? {
        return 1, None;
      }
      ghost var r := Pass(files, env);
      ghost var x := ExtractAll(files, env.cwd.value, env.extracts);
      var ok := ExtractTools(env.cwd.value, env.extracts);
      if !ok {
        assert r == Abort(x);
        return 1, None;
      }
      ghost var e0, e1 := old(events), events;
      ghost var p0 := Provision(files, env);
      ghost var p := Then(x, p0);
      ok := Provisioning(env);
      assert events == e1 + p0.events && e1 == e0 + x.events;
      AppendAssoc(e0, x.events, p0.events);
      if !ok {
        assert r == Abort(p);
        return 1, None;
      }
      var selfname := Target(env.argv);
      ghost var e2 := events;
      ghost var s0 := Steps.CopyAndSign(files, selfname, env.copied, env.signtool);
      ghost var s := Then(p, s0);
      ok := CopyAndSign(selfname, env.copied, env.signtool);
      assert events == e2 + s0.events && e2 == e0 + p.events;
      AppendAssoc(e0, p.events, s0.events);
      if !ok {
        assert r == Abort(s);
        return 1, None;
      }
      assert |selfname| >= 4;
      assert r == Outcome(s.files, s.events, 0, Some(SignedMessage(SignedName(selfname))));
      return 0, Some(SignedMessage(SignedName(selfname)));
    }

    /** Lines 55-58 of main: the four provisioning steps. */
    method Provisioning(env: Env) returns (ok: bool)
      modifies this
      ensures var r := Provision(old(files), env);
        files == r.files && events == old(events) + r.events && ok == r.ok
    {
      ghost var r := Provision(files, env);
      ghost var e0 := events;
      ghost var ca := CreateAuthority(files, env.caMakecert, env.stuck);
      ok := CreateCertificateAuthority(env.caMakecert, env.stuck);
      if !ok {
        assert r == ca;
        return;
      }
      ghost var e1 := events;
      ghost var im0 := ImportAuthority(files, env.certutil);
      ok := ImportCertificateAuthority(env.certutil);
      AppendAssoc(e0, ca.events, im0.events);
      ghost var im := Then(ca, im0);
      if !ok {
        assert r == im;
        return;
      }
      ghost var e2 := events;
      ghost var leaf0 := CreateLeaf(files, env.leafMakecert, env.stuck);
      ok := CreateCertificate(env.leafMakecert, env.stuck);
      AppendAssoc(e0, im.events, leaf0.events);
      ghost var leaf := Then(im, leaf0);
      if !ok {
        assert r == leaf;
        return;
      }
      ghost var pfx := ConvertToPfx(files, env.pvk2pfx);
      ok := ConvertPvkIntoPfx(env.pvk2pfx);
      AppendAssoc(e0, leaf.events, pfx.events);
      assert r == Then(leaf, pfx);
    }
  }
}
