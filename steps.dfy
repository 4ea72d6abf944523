/** The decisions selfsign makes, as pure functions over an abstract working
    directory: the set of entry names present in it. Each step returns the new
    directory, the events it caused in order (unlinks, external tool runs,
    writes, copies) and whether the program may go on; a step that returns
    not-ok is a fatal_if that ended the process with exit code 1.

    External tools are not modelled beyond their outcome: a run with status 0
    adds exactly the files the tool is asked to produce, a run with any other
    status may have left any part of them behind. */
module Steps {
  import opened Naming

  newtype int32 = x: int | -0x8000_0000 <= x < 0x8000_0000
  newtype int64 = x: int | -0x8000_0000_0000_0000 <= x < 0x8000_0000_0000_0000

  datatype Option<T> = None | Some(value: T)

  // ---------------------------------------------------------------------
  // Artifacts and commands

  const CaPvk: string := "selfsign-ca.pvk"
  const CaCer: string := "selfsign-ca.cer"
  const SpcPvk: string := "selfsign-spc.pvk"
  const SpcCer: string := "selfsign-spc.cer"
  const Pfx: string := "selfsign.pfx"

  /** makecert either creates the self-signed authority (-r, -cy authority)
      or a leaf issued by it (-ic/-iv, -cy end). */
  datatype CertKind = Authority | Leaf

  datatype Store = Root | TrustedPublisher
  datatype StoreOp = DelStore | AddStore

  /** The external command lines the program runs through system(). */
  datatype Command =
    | Makecert(kind: CertKind)
    | Certutil(op: StoreOp, store: Store)
    | Pvk2pfx
    | Signtool(path: string)

  /** The key file and the certificate file one makecert run writes. */
  function KeyFile(k: CertKind): string
  {
    if k == Authority then CaPvk else SpcPvk
  }

  function CertFile(k: CertKind): string
  {
    if k == Authority then CaCer else SpcCer
  }

  function Pair(k: CertKind): set<string>
  {
    {KeyFile(k), CertFile(k)}
  }

  /** The files a successful run of the command leaves in the directory. */
  function Outputs(c: Command): set<string>
  {
    match c
    case Makecert(k) => Pair(k)
    case Pvk2pfx => {Pfx}
    case _ => {}
  }

  /** Every command except the two "-delstore" calls runs under fatal_if. */
  predicate Guarded(c: Command)
  {
    !(c.Certutil? && c.op == DelStore)
  }

  /** The commands that create key material: the expensive ones a second run
      must not repeat. */
  predicate Generates(c: Command)
  {
    c.Makecert? || c.Pvk2pfx?
  }

  /** The outcome of one external tool run: its exit status and, for a failed
      run, whichever of its outputs it had already written. */
  datatype ToolRun = ToolRun(status: int, partial: set<string>)

  function Created(c: Command, run: ToolRun): (s: set<string>)
    ensures s <= Outputs(c)
    ensures run.status == 0 ==> s == Outputs(c)
  {
    if run.status == 0 then Outputs(c) else run.partial * Outputs(c)
  }

  datatype Event =
    | Unlink(name: string)
    | Exec(cmd: Command, status: int)
    | Write(path: string)
    | Copy(src: string, dst: string)

  /** A run of a guarded command with a non-zero status: it aborts the program. */
  predicate Fatal(e: Event)
  {
    e.Exec? && Guarded(e.cmd) && e.status != 0
  }

  /** A run of makecert or pvk2pfx. */
  predicate Generation(e: Event)
  {
    e.Exec? && Generates(e.cmd)
  }

  /** The effect of a step on the working directory and the log. */
  datatype Step = Step(files: set<string>, events: seq<Event>, ok: bool)

  /** Step b run after step a; b is computed from a's directory. */
  function Then(a: Step, b: Step): Step
  {
    Step(b.files, a.events + b.events, b.ok)
  }

  /** unlink(name): the entry is gone afterwards, whether or not it was
      there, unless it is one of the stuck names (read-only, in use, a
      directory), which stay. The result is ignored: the program goes on. */
  function Remove(files: set<string>, name: string, stuck: set<string>): (r: Step)
    ensures name in r.files <==> name in files && name in stuck
    ensures r.files - {name} == files - {name}
    ensures r.events == [Unlink(name)]
    ensures r.ok
  {
    Step(if name in stuck then files else files - {name}, [Unlink(name)], true)
  }

  /** One system() call: the tool's files appear; a non-zero status of a
      guarded command is fatal, that of an unguarded one is ignored. */
  function System(files: set<string>, c: Command, run: ToolRun): (r: Step)
    ensures r.files == files + Created(c, run)
    ensures r.events == [Exec(c, run.status)]
    ensures r.ok <==> run.status == 0 || !Guarded(c)
    ensures r.ok <==> !Fatal(r.events[0])
  {
    Step(files + Created(c, run), [Exec(c, run.status)], run.status == 0 || !Guarded(c))
  }

  // ---------------------------------------------------------------------
  // Extraction of the embedded tools

  datatype WriteOutcome = BadSize | OpenFailed | ShortWrite | CloseFailed | Written

  /** The guards of write_fully, in order: the size must lie in 1..0xFFFFFFFF,
      open must succeed, write must report the whole size, close must succeed.
      Anything else is fatal. */
  function WriteFully(bytes: int64, openOk: bool, written: int32, closeOk: bool): (r: WriteOutcome)
    ensures r == Written <==>
      0 < bytes as int <= 0xFFFF_FFFF && openOk && written as int == bytes as int && closeOk
    ensures bytes <= 0 || bytes as int > 0xFFFF_FFFF ==> r == BadSize
    ensures r == Written ==> bytes as int <= 0x7FFF_FFFF
    ensures r != BadSize && r != OpenFailed <==> 0 < bytes as int <= 0xFFFF_FFFF && openOk
  {
    if !(0 < bytes && bytes as int <= 0xFFFF_FFFF) then BadSize
    else if !openOk then OpenFailed
    else if written as int != bytes as int then ShortWrite
    else if !closeOk then CloseFailed
    else Written
  }

  /** What the environment does when one tool is extracted: whether the
      resource is found, its size, and how open, write and close go. */
  datatype WriteEnv = WriteEnv(found: bool, size: int64, openOk: bool, written: int32, closeOk: bool)

  /** extract(tag): write the embedded tool to the working directory unless a
      file of that name is already there. A successful open creates the file
      even when the write or the close then fails. */
  function ExtractTool(files: set<string>, cwd: string, tag: string, w: WriteEnv): (r: Step)
    requires |tag| >= 4
    ensures ToolFileName(tag) in files ==> r == Step(files, [], true)
    ensures r.ok ==> ToolFileName(tag) in r.files
    ensures r.files - {ToolFileName(tag)} == files - {ToolFileName(tag)}
    ensures forall e :: e in r.events ==> e == Write(ExtractPath(cwd, tag)) && ToolFileName(tag) !in files
    ensures r.ok <==> ToolFileName(tag) in files || (w.found && WriteFully(w.size, w.openOk, w.written, w.closeOk) == Written)
  {
    var name := ToolFileName(tag);
    if name in files then Step(files, [], true)
    else if !w.found then Step(files, [], false)
    else
      var outcome := WriteFully(w.size, w.openOk, w.written, w.closeOk);
      if outcome == BadSize || outcome == OpenFailed then Step(files, [], false)
      else Step(files + {name}, [Write(ExtractPath(cwd, tag))], outcome == Written)
  }

  /** The file names the three embedded tools are extracted under. */
  const ToolFiles: set<string> := {"pvk2pfx.exe", "makecert.exe", "signtool.exe"}

  /** The three extract calls at the start of an elevated run: afterwards every
      tool is present, and no other entry of the directory has changed. */
  function ExtractAll(files: set<string>, cwd: string, ws: seq<WriteEnv>): (r: Step)
    requires |ws| == 3
    ensures r.ok ==> ToolFiles <= r.files
    ensures r.files - ToolFiles == files - ToolFiles
    ensures ToolFiles <= files ==> r == Step(files, [], true)
    ensures forall e :: e in r.events ==> e.Write?
  {
    ToolFileNamesOfTags();
    var a := ExtractTool(files, cwd, Pvk2pfxTag, ws[0]);
    if !a.ok then a else
    var b := ExtractNext(a, cwd, MakecertTag, ws[1]);
    if !b.ok then b else
    ExtractNext(b, cwd, SigntoolTag, ws[2])
  }

  /** One more extract call after the ones that produced a. */
  function ExtractNext(a: Step, cwd: string, tag: string, w: WriteEnv): (r: Step)
    requires |tag| >= 4
    ensures r.files - {ToolFileName(tag)} == a.files - {ToolFileName(tag)}
    ensures r.ok ==> ToolFileName(tag) in r.files
    ensures ToolFileName(tag) in a.files ==> r == Then(a, Step(a.files, [], true))
    ensures (forall e :: e in a.events ==> e.Write?) ==> forall e :: e in r.events ==> e.Write?
  {
    Then(a, ExtractTool(a.files, cwd, tag, w))
  }

  // ---------------------------------------------------------------------
  // The provisioning pipeline

  /** Delete both files of a pair, then run makecert to create them again.
      What is left of the pair is makecert's output and any old file whose
      unlink failed. */
  function Regenerate(files: set<string>, k: CertKind, run: ToolRun, stuck: set<string>): (r: Step)
    ensures r.files * Pair(k) == Created(Makecert(k), run) + files * Pair(k) * stuck
    ensures r.files - Pair(k) == files - Pair(k)
    ensures r.ok <==> run.status == 0
  {
    var a := Remove(files, KeyFile(k), stuck);
    var b := Then(a, Remove(a.files, CertFile(k), stuck));
    Then(b, System(b.files, Makecert(k), run))
  }

  /** create_selfsign_certificate_authority: keep the authority pair when both
      files exist; otherwise delete both and create a new pair, so that half of
      an old pair is never used with half of a new one. */
  function CreateAuthority(files: set<string>, makecert: ToolRun, stuck: set<string>): (r: Step)
    ensures Pair(Authority) <= files ==> r == Step(files, [], true)
    ensures !(Pair(Authority) <= files) ==>
      r.files * Pair(Authority) == Created(Makecert(Authority), makecert) + files * Pair(Authority) * stuck
      && Exec(Makecert(Authority), makecert.status) in r.events
    ensures !(Pair(Authority) <= files) && Pair(Authority) !! stuck ==>
      r.files * Pair(Authority) == Created(Makecert(Authority), makecert)
    ensures r.files - Pair(Authority) == files - Pair(Authority)
    ensures r.ok ==> Pair(Authority) <= r.files
    ensures r.ok <==> Pair(Authority) <= files || makecert.status == 0
  {
    if CaPvk in files && CaCer in files then Step(files, [], true)
    else Regenerate(files, Authority, makecert, stuck)
  }

  /** The runs of certutil: the exit statuses of the two -delstore and the two
      -addstore calls. */
  datatype CertutilRuns = CertutilRuns(delRoot: int, delPublisher: int, addRoot: int, addPublisher: int)

  /** import_certificate_authority: always remove the authority from the Root
      and the trusted publisher stores, ignoring failures, then add it to both;
      a failed add is fatal. The directory does not change. */
  function ImportAuthority(files: set<string>, runs: CertutilRuns): (r: Step)
    ensures r.files == files
    ensures r.ok <==> runs.addRoot == 0 && runs.addPublisher == 0
    ensures |r.events| == (if runs.addRoot == 0 then 4 else 3)
    ensures r.events[0] == Exec(Certutil(DelStore, Root), runs.delRoot)
    ensures r.events[1] == Exec(Certutil(DelStore, TrustedPublisher), runs.delPublisher)
    ensures r.events[2] == Exec(Certutil(AddStore, Root), runs.addRoot)
    ensures runs.addRoot == 0 ==> r.events[3] == Exec(Certutil(AddStore, TrustedPublisher), runs.addPublisher)
  {
    var a := System(files, Certutil(DelStore, Root), ToolRun(runs.delRoot, {}));
    var b := Then(a, System(a.files, Certutil(DelStore, TrustedPublisher), ToolRun(runs.delPublisher, {})));
    var c := Then(b, System(b.files, Certutil(AddStore, Root), ToolRun(runs.addRoot, {})));
    if !c.ok then c else
    Then(c, System(c.files, Certutil(AddStore, TrustedPublisher), ToolRun(runs.addPublisher, {})))
  }

  /** create_selfsign_certificate: like the authority step for the leaf pair;
      when a new leaf pair was made, the container built from the old one is
      deleted too, unless its unlink fails. When both leaf files exist nothing,
      not even the container, is touched. */
  function CreateLeaf(files: set<string>, makecert: ToolRun, stuck: set<string>): (r: Step)
    ensures Pair(Leaf) <= files ==> r == Step(files, [], true)
    ensures !(Pair(Leaf) <= files) ==>
      r.files * Pair(Leaf) == Created(Makecert(Leaf), makecert) + files * Pair(Leaf) * stuck
      && Exec(Makecert(Leaf), makecert.status) in r.events
    ensures !(Pair(Leaf) <= files) && Pair(Leaf) !! stuck ==>
      r.files * Pair(Leaf) == Created(Makecert(Leaf), makecert)
    ensures !(Pair(Leaf) <= files) && r.ok ==> (Pfx in r.files <==> Pfx in files && Pfx in stuck)
    ensures !r.ok ==> (Pfx in r.files <==> Pfx in files)
    ensures r.files - Pair(Leaf) - {Pfx} == files - Pair(Leaf) - {Pfx}
    ensures r.ok ==> Pair(Leaf) <= r.files
    ensures r.ok <==> Pair(Leaf) <= files || makecert.status == 0
  {
    if SpcPvk in files && SpcCer in files then Step(files, [], true)
    else
      var g := Regenerate(files, Leaf, makecert, stuck);
      if !g.ok then g else Then(g, Remove(g.files, Pfx, stuck))
  }

  /** convert_certificate_pvk_into_pfx: build the container only when it is
      missing. */
  function ConvertToPfx(files: set<string>, pvk2pfx: ToolRun): (r: Step)
    ensures Pfx in files ==> r == Step(files, [], true)
    ensures Pfx !in files ==> r.events == [Exec(Pvk2pfx, pvk2pfx.status)]
    ensures r.files - {Pfx} == files - {Pfx}
    ensures r.ok ==> Pfx in r.files
    ensures r.ok <==> Pfx in files || pvk2pfx.status == 0
  {
    if Pfx in files then Step(files, [], true)
    else System(files, Pvk2pfx, pvk2pfx)
  }

  /** What the environment does in one run of the program. */
  datatype Env = Env(
    argv: seq<string>,
    elevated: bool,        // is_elevated()
    relaunched: int,       // exit status of the elevated copy started by runas_admin
    cwd: Option<string>,   // GetCurrentDirectoryA, None when it fails
    stuck: set<string>,    // the names whose unlink fails
    extracts: seq<WriteEnv>,
    caMakecert: ToolRun,
    certutil: CertutilRuns,
    leafMakecert: ToolRun,
    pvk2pfx: ToolRun,
    copied: bool,          // CopyFile
    signtool: int)

  /** A target name the program can handle: an empty one, which str rejects
      fatally, or one long enough for the index four places from its end. */
  predicate TargetLength(target: string)
  {
    |target| == 0 || |target| >= 4
  }

  /** The program's own demands on its input: an argv[0], and a target name
      it can handle. */
  predicate ValidEnv(env: Env)
  {
    |env.argv| >= 1 && TargetLength(Target(env.argv)) && |env.extracts| == 3
  }

  /** Everything the provisioning steps may create or delete. */
  const KeyMaterial: set<string> := {CaPvk, CaCer, SpcPvk, SpcCer, Pfx}

  /** The four provisioning steps, each run only when the one before it
      succeeded. They touch nothing but the two pairs and the container, and
      when all four succeed, all five files are present. */
  function Provision(files: set<string>, env: Env): (r: Step)
    ensures r.files - KeyMaterial == files - KeyMaterial
    ensures r.ok ==> KeyMaterial <= r.files
    ensures r.ok ==> env.certutil.addRoot == 0 && env.certutil.addPublisher == 0
  {
    var ca := CreateAuthority(files, env.caMakecert, env.stuck);
    SameOutsideKeyMaterial(ca.files, files, Pair(Authority), {});
    if !ca.ok then ca else
    var im := Then(ca, ImportAuthority(ca.files, env.certutil));
    if !im.ok then im else
    var leaf := Then(im, CreateLeaf(im.files, env.leafMakecert, env.stuck));
    SameOutsideKeyMaterial(leaf.files, im.files, Pair(Leaf), {Pfx});
    if !leaf.ok then leaf else
    var pfx := ConvertToPfx(leaf.files, env.pvk2pfx);
    SameOutsideKeyMaterial(pfx.files, leaf.files, {Pfx}, {});
    Then(leaf, pfx)
  }

  /** Two directories that agree outside part of the key material agree
      outside all of it. */
  lemma SameOutsideKeyMaterial(a: set<string>, b: set<string>, s: set<string>, t: set<string>)
    requires s + t <= KeyMaterial
    requires a - s - t == b - s - t
    ensures a - KeyMaterial == b - KeyMaterial
  {
    assert a - KeyMaterial == (a - s - t) - KeyMaterial;
    assert b - KeyMaterial == (b - s - t) - KeyMaterial;
  }

  /** sing_code: run signtool on the copy; a non-zero status is fatal. */
  function SignCode(files: set<string>, path: string, status: int): (r: Step)
    ensures r.files == files
    ensures r.events == [Exec(Signtool(path), status)]
    ensures r.ok <==> status == 0
  {
    System(files, Signtool(path), ToolRun(status, {}))
  }

  /** The signed copy a target can produce: none for an empty name. */
  function SignedCopies(selfname: string): (s: set<string>)
    requires TargetLength(selfname)
    ensures |selfname| == 0 ==> s == {}
    ensures |selfname| >= 4 ==> s == {SignedName(selfname)}
  {
    if |selfname| == 0 then {} else {SignedName(selfname)}
  }

  /** The tail of main: copy the target to its signed name, then sign the
      copy. An empty name is fatal before anything is copied. */
  function CopyAndSign(files: set<string>, selfname: string, copied: bool, status: int): (r: Step)
    requires TargetLength(selfname)
    ensures |selfname| == 0 ==> r == Step(files, [], false)
    ensures r.ok <==> |selfname| >= 4 && copied && status == 0
    ensures r.files == if |selfname| >= 4 && copied then files + SignedCopies(selfname) else files
    ensures |selfname| >= 4 && copied ==>
      r.events == [Copy(selfname, SignedName(selfname)), Exec(Signtool(SignedName(selfname)), status)]
    ensures !copied ==> r.events == []
  {
    if |selfname| == 0 then Step(files, [], false) else
    var out := SignedName(selfname);
    if !copied then Step(files, [], false)
    else Then(Step(files + {out}, [Copy(selfname, out)], true), SignCode(files + {out}, out, status))
  }

  function SignedMessage(path: string): string
  {
    "signed: \"" + path + "\"\n"
  }

  /** One run of the program: the directory afterwards, the events in order,
      the exit code and the confirmation line, if any. */
  datatype Outcome = Outcome(files: set<string>, events: seq<Event>, exitCode: int, message: Option<string>)

  function Abort(s: Step): Outcome
  {
    Outcome(s.files, s.events, 1, None)
  }

  /** main: a process without administrative rights only relays the exit
      status of its elevated copy; an elevated one extracts the tools, runs the
      four provisioning steps and signs a copy of the target. */
  function Pass(files: set<string>, env: Env): (r: Outcome)
    requires ValidEnv(env)
    ensures !env.elevated ==> r == Outcome(files, [], env.relaunched, None)
    ensures env.elevated ==> r.exitCode == 0 || r.exitCode == 1
    ensures r.message.Some? <==> env.elevated && r.exitCode == 0
  {
    if !env.elevated then Outcome(files, [], env.relaunched, None)
    else if env.cwd.None? then Abort(Step(files, [], false))
    else
      var x := ExtractAll(files, env.cwd.value, env.extracts);
      if !x.ok then Abort(x) else
      var p := Then(x, Provision(x.files, env));
      if !p.ok then Abort(p) else
      var selfname := Target(env.argv);
      var s := Then(p, CopyAndSign(p.files, selfname, env.copied, env.signtool));
      if !s.ok then Abort(s) else
      assert |selfname| >= 4;
      Outcome(s.files, s.events, 0, Some(SignedMessage(SignedName(selfname))))
  }

  /** The program run again and again in the same directory. */
  datatype History = History(files: set<string>, events: seq<Event>)

  function Runs(files: set<string>, envs: seq<Env>): History
    requires forall i :: 0 <= i < |envs| ==> ValidEnv(envs[i])
    decreases |envs|
  {
    if envs == [] then History(files, [])
    else
      var p := Pass(files, envs[0]);
      var h := Runs(p.files, envs[1..]);
      History(h.files, p.events + h.events)
  }

  /** Everything a completed run leaves behind: the three tools, both pairs
      and the container. */
  const Artifacts: set<string> := ToolFiles + KeyMaterial

  /** The tool files and the key material are different entries. */
  lemma ToolFilesAreNotKeyMaterial()
    ensures ToolFiles !! KeyMaterial
  {
    assert |"pvk2pfx.exe"| == 11 && |"makecert.exe"| == 12 && |"signtool.exe"| == 12;
    assert |CaPvk| == 15 && |CaCer| == 15 && |SpcPvk| == 16 && |SpcCer| == 16 && |Pfx| == 12;
    assert "makecert.exe"[0] != Pfx[0] && "signtool.exe"[1] != Pfx[1];
  }

  predicate Provisioned(files: set<string>)
  {
    Artifacts <= files
  }
}
