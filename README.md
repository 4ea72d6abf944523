# selfsign, modelled in Dafny

selfsign is a small Windows program that signs an executable with a
self-made code-signing certificate. Run without administrative rights, it
starts an elevated copy of itself and returns that copy's exit status. Run
elevated, it does four things in turn:

- It writes the three helper tools embedded in it (`pvk2pfx.exe`,
  `makecert.exe`, `signtool.exe`) into the working directory. It skips any
  tool whose file is already there.
- It provisions the key material through an existence-gated pipeline:
  - it creates a certificate authority pair `selfsign-ca.pvk`/`.cer`;
  - it imports the authority into the Root and trusted-publisher stores;
  - it creates a leaf pair `selfsign-spc.pvk`/`.cer`;
  - it builds the container `selfsign.pfx`.

  The two creation steps and the container step run their tool only when
  the files it would produce are missing. The import step runs certutil on
  every elevated run.
- It copies the target executable to `<name>.signed.exe`.
- It signs the copy with signtool and prints `signed: "<path>"`.

Any failed guarded call (`fatal_if`) ends the process with exit code 1.

The model has four modules:

- `Naming` holds the pure string derivations. One turns the resource tag of
  an embedded tool into its file name and path. The other turns the target
  name into the name of the signed copy. Both index the character four
  places from the end, so both require at least four characters.
- `Steps` holds the decisions as pure functions over an abstract working
  directory, which is a set of entry names:
  - each step returns the new directory, the events it caused in order
    (unlink, tool run, write, copy) and whether the program may go on;
  - the environment of a run says how each call it cannot see turns out:
    the tool statuses, the extract writes, the copy, and which names cannot
    be unlinked (a read-only file, a file in use, a directory);
  - a tool run is only its outcome: a status and, when it failed, whichever
    of its output files it had already written;
  - `Pass` is one run of `main`, and `Runs` is the program run again and
    again in the same directory.
- `Properties` holds the lemmas about the pipeline:
  - a fatal tool run is the last event of a run;
  - both files of a pair are always unlinked right before makecert writes
    them;
  - a new leaf pair brings a new container, unless the container's unlink
    fails, in which case the old container is kept and used;
  - an empty target name ends the run with exit code 1 after provisioning;
  - once a run has completed, no later run creates key material again;
  - a run in which nothing fails completes from any directory.
- `SelfSign` holds the program as it runs. The class `WorkDir` holds the
  mutable directory and the event log. Its methods are the C functions,
  each proved to change the state exactly as the matching step function
  says.

## Model

| member | source | states |
|---|---|---|
| Naming.Target | selfsign.c:59 | the target is the first argument when there is one, and the program's own path otherwise |
| Naming.ToolFileName | selfsign.c:116-118 | the length is kept; every character except the one four places from the end is kept; an underscore there becomes a dot, anything else leaves the tag unchanged; needs at least four characters |
| Naming.ExtractPath | selfsign.c:119 | the path is the working directory, one backslash, then the tool's file name |
| Naming.ToolFileNamesOfTags | selfsign.c:52-54 | the three tags extract to `pvk2pfx.exe`, `makecert.exe` and `signtool.exe` |
| Naming.SignedName | selfsign.c:60-64 | the signed name is a prefix of the target followed by `.signed.exe`; four characters shorter than the target, unless the guard keeps the name whole; needs at least four characters |
| Naming.SignedNameDropsLastFour | selfsign.c:63-64 | above four characters the last four are dropped whatever they are, so the guard never checks for an extension |
| Naming.SignedNameOfFourCharacters | selfsign.c:63-64 | at exactly four characters a name starting with a dot is kept whole, and any other name is cut to nothing |
| Naming.SignedNameOfAppExe | selfsign.c:62-64 | `app.exe` is signed as `app.signed.exe` |
| Naming.SignedNameOfBareName | selfsign.c:63-64 | `selfsign` without an extension still loses four characters and gives `self.signed.exe` |
| Naming.SignedNameOfAbcd | selfsign.c:63-64 | `abcd` gives `.signed.exe` |
| Naming.SignedNameOfDotExe | selfsign.c:63-64 | `.exe` gives `.exe.signed.exe` |
| Steps.Created | selfsign.c:132-134 | a tool run adds only files it is asked to produce, and all of them when its status is 0 |
| Steps.Remove | selfsign.c:130-131 | unlink is logged and only that name can change; afterwards it is present iff it was present and its unlink fails; the result is ignored and the program goes on |
| Steps.System | selfsign.c:13-19 | a tool run adds its files and logs exactly that command with its status; the program may go on iff the status is 0 or the command is not guarded, that is iff the logged run is not fatal |
| Steps.WriteFully | selfsign.c:106-113 | the write succeeds iff the size is in 1..0xFFFFFFFF, open succeeds, the write reports the whole size and close succeeds; a bad size is rejected before open; success needs a size of at most 0x7FFFFFFF; the file exists afterwards iff the size was good and open succeeded |
| Steps.ExtractTool | selfsign.c:115-126 | a tool already present is left alone, with no events; otherwise the only event is the write to the derived path; only that one name can change; it succeeds iff the file was present or the resource was found and fully written; success leaves the file present |
| Steps.ExtractAll | selfsign.c:52-54 | after the three extracts succeed every tool file is present; no other entry changes; with all three present nothing happens; the only events are writes |
| Steps.Regenerate | selfsign.c:129-134 | after deleting a pair and running makecert, the pair holds makecert's output plus any old file whose unlink failed; everything else is unchanged; it succeeds iff makecert's status is 0 |
| Steps.CreateAuthority | selfsign.c:128-136 | with both authority files present nothing happens; otherwise makecert ran and the pair is its output plus any old file whose unlink failed, so exactly its output when both unlinks succeed; only the pair can change; success leaves both files present; it succeeds iff the pair was complete or makecert returned 0 |
| Steps.ImportAuthority | selfsign.c:138-144 | the directory is unchanged; the two -delstore runs always come first, whatever their status, then the -addstore Root run and, if that returned 0, the -addstore trustedpublisher run; the step succeeds iff both -addstore runs return 0; a failed -addstore Root ends it after three events |
| Steps.CreateLeaf | selfsign.c:146-156 | like the authority step for the leaf pair; after a successful regeneration the container is present only if it was and its unlink failed; a complete pair leaves everything, the container included, untouched; a failure leaves the container as it was |
| Steps.ConvertToPfx | selfsign.c:158-162 | with the container present nothing happens; otherwise exactly one pvk2pfx run; only the container can change; it succeeds iff the container was present or pvk2pfx returned 0 |
| Steps.Provision | selfsign.c:55-58 | the four steps touch nothing but the two pairs and the container; success leaves all five files present; success implies both -addstore runs returned 0 |
| Steps.SignCode | selfsign.c:164-170 | signing runs signtool on the given path and nothing else, leaves the directory unchanged and succeeds iff signtool returned 0 |
| Steps.CopyAndSign | selfsign.c:59-66 | an empty target name is fatal before anything happens; otherwise the target is copied to its signed name and the copy is signed, in that order; it succeeds iff the name is not empty and the copy and signtool both succeed; a failed copy does nothing |
| Steps.Pass | selfsign.c:45-70 | an unelevated run does nothing itself and returns the elevated copy's status (that copy's own run is a separate `Pass`, which the status is not tied to); an elevated run exits with 0 or 1; the confirmation line is printed iff an elevated run exits with 0 |
| Properties.FatalRunIsLast | selfsign.c:13-19 | a failed guarded tool run is the last event of the run, which exits with 1 and prints nothing; a printed confirmation line means exit 0 and no failed guarded run |
| Properties.RegenerateEvents | selfsign.c:129-134 | regeneration is the unlink of the key file, the unlink of the certificate file, then makecert |
| Properties.PairDeletedBeforeMakecert | selfsign.c:128-156 | in every run, each makecert run comes right after the unlinks of both files it writes; with the unlinks succeeding, half an old pair is never kept beside half a new one (see `Steps.CreateAuthority`, `Steps.CreateLeaf`) |
| Properties.ProvisionCompleted | selfsign.c:55-58 | provisioning that succeeded ran all four steps in order, each one successfully |
| Properties.LeafRenewalRebuildsContainer | selfsign.c:146-160 | provisioning that starts without a complete leaf pair and succeeds, with the container's unlink succeeding, ends with the unlink of the container and a successful pvk2pfx run |
| Properties.NoContainerRunBeforeConversion | selfsign.c:128-156 | the authority, import and leaf steps never run pvk2pfx, whatever their outcome |
| Properties.LeafRenewalKeepsStuckContainer | selfsign.c:146-160 | when the container's unlink fails, provisioning that renews the leaf pair ends with that unlink, never runs pvk2pfx, and keeps the container built from the old pair |
| Properties.LeafKeptKeepsContainer | selfsign.c:146-162 | provisioning that starts with the leaf pair and the container runs no pvk2pfx and leaves all three files in place |
| Properties.CompletedRunProvisions | selfsign.c:52-67 | an elevated run that exits with 0 leaves every tool, both pairs and the container, and prints the signed name of the target |
| Properties.PassCompleted | selfsign.c:45-70 | an elevated run that exits with 0 got through extraction, provisioning and signing |
| Properties.ConvertToPfxIdempotent | selfsign.c:158-162 | after the container step succeeded once, running it again does nothing |
| Properties.ProvisionIdempotent | selfsign.c:55-58 | provisioning again after a successful provisioning leaves the directory as it is and runs neither makecert nor pvk2pfx |
| Properties.ProvisionedProvisionRegeneratesNothing | selfsign.c:128-162 | with all five key files present, provisioning changes nothing and runs only certutil |
| Properties.ProvisionStartsWithCertutil | selfsign.c:138-140 | with the authority pair present, provisioning starts with the -delstore from the Root store |
| Properties.CopyAndSignTouchesOnlyCopy | selfsign.c:65-66 | copying and signing adds at most the signed copy, and runs only the copy and signtool |
| Properties.ProvisionedRunRegeneratesNothing | selfsign.c:45-70 | a run in a directory holding every artifact runs neither makecert nor pvk2pfx, deletes nothing and adds at most the signed copy; certutil still runs first |
| Properties.LaterRunsRegenerateNothing | selfsign.c:45-70 | once every artifact is present, any number of later runs, whatever fails in them, never run makecert or pvk2pfx, and every artifact stays |
| Properties.SecondRunRegeneratesNothing | selfsign.c:45-70 | after one completed run, the runs that follow never create key material again |
| Properties.EmptyTargetAborts | selfsign.c:55-85 | an elevated run with an empty target name exits with 1 without the confirmation line, and changes nothing beyond the tools and the key material: no copy is made |
| Properties.HealthyRunCompletes | selfsign.c:45-70 | from any directory, including one holding half a pair or a stale container, a run in which no call fails exits with 0, prints the confirmation and leaves every artifact |
| SelfSign.WorkDir.constructor | selfsign.c:21 | a fresh directory object holds the given entries and an empty log |
| SelfSign.WorkDir.Exists | selfsign.c:102-104 | an entry exists iff it is in the directory |
| SelfSign.WorkDir.Unlink | selfsign.c:130 | the name is gone unless its unlink fails, and one unlink is logged either way |
| SelfSign.WorkDir.System | selfsign.c:132-134 | the tool's files are added and one run is logged with its status |
| SelfSign.WorkDir.WriteFully | selfsign.c:106-113 | the new state and result are those of `Steps.WriteFully`: the file appears once open succeeds, even if the write or close then fails |
| SelfSign.WorkDir.Extract | selfsign.c:115-126 | the new state and result are those of `Steps.ExtractTool` |
| SelfSign.WorkDir.CreateCertificateAuthority | selfsign.c:128-136 | the new state and result are those of `Steps.CreateAuthority` |
| SelfSign.WorkDir.ImportCertificateAuthority | selfsign.c:138-144 | the new state and result are those of `Steps.ImportAuthority` |
| SelfSign.WorkDir.CreateCertificate | selfsign.c:146-156 | the new state and result are those of `Steps.CreateLeaf` |
| SelfSign.WorkDir.ConvertPvkIntoPfx | selfsign.c:158-162 | the new state and result are those of `Steps.ConvertToPfx` |
| SelfSign.WorkDir.SignCode | selfsign.c:164-170 | the new state and result are those of `Steps.SignCode` |
| SelfSign.WorkDir.CopyFile | selfsign.c:65 | a successful copy adds the destination, overwriting it if present, and logs the copy; a failed one does nothing |
| SelfSign.WorkDir.ExtractTools | selfsign.c:52-54 | the new state and result are those of `Steps.ExtractAll` |
| SelfSign.WorkDir.CopyAndSign | selfsign.c:59-66 | the new state and result are those of `Steps.CopyAndSign`, including the fatal empty name |
| SelfSign.WorkDir.Provisioning | selfsign.c:55-58 | the new state and result are those of `Steps.Provision` |
| SelfSign.WorkDir.Run | selfsign.c:45-70 | the new state, exit code and printed line are those of `Steps.Pass` |

## Left out

- `is_elevated` (selfsign.c:197-221) is not modelled. Its Win32 group-membership checks become the `elevated` field of the environment.
- `runas_admin` (selfsign.c:172-195) is not modelled. The relaunch, the fixed two-second wait and the child's exit code become the `relaunched` field; the model does not capture that the child may still be running when its status is read.
- `memmap_resourse` (selfsign.c:94-100) is reduced to whether the resource is found and its size. A missing resource is a fatal failure of the extract step; the embedded bytes are not modelled.
- `alloc` and `str` (selfsign.c:74-92) are plain sequence concatenation. Their fatal failure on an out of memory condition is not modelled. The one empty string they can be given, an empty target name at line 60, is modelled: `Steps.CopyAndSign` fails there.
- Naming.SignedName: lengths and the index four places from the end are counted in characters, while the source counts bytes of the name in the ANSI code page (selfsign.c:61-63). The model therefore matches the source only for names made of single-byte characters; with double-byte characters the source cuts four bytes, which may drop fewer characters or split one. The same holds for `Naming.ToolFileName`, whose tags are all ASCII.
- Steps.Pass: a target name of one to three characters is excluded (in the source, one to three bytes). Line 63 then reads before the start of the buffer, which is undefined behaviour. Provisioning, which comes before line 63, is well defined for such a name, but the model does not cover it.
- The names whose unlink fails are fixed for a whole run. The model does not cover an unlink that fails once and succeeds later in the same run.
- The external tools are modelled only by their exit status and the files they leave. This covers makecert, certutil, pvk2pfx, signtool and CopyFile. What they write into the certificate stores, the certificate and key contents, the PKCS #12 container format and signtool's network timestamp request are not modelled.
- `GetCurrentDirectoryA` is an optional working directory in the environment. The fixed `MAX_PATH` buffer is not modelled.
- The directory is a set of names. The extract step looks up the bare file name, while the source checks `cwd\name`; both refer to the same entry, because the working directory does not change during a run. Path aliasing is not modelled: other spellings of the same file, and a target that names one of the artifacts.
- The `fatal_if` message on stderr and the `GetLastError` value it prints are not modelled; only the exit code 1 is.
- Naming.SignedName: the name is cut by four characters whenever it is longer than four, as the code at selfsign.c:63 does. The comment above that line calls this removing the ".exe" extension, but the code never checks for one. The model follows the code, and the lemmas `Naming.SignedNameDropsLastFour` and `Naming.SignedNameOfFourCharacters` pin the behaviour down.
- Naming.SignedName and Naming.ToolFileName require at least four characters. The source indexes four places from the end without a check, so a shorter string reads outside the buffer; the model treats that as outside its domain instead of modelling memory.
