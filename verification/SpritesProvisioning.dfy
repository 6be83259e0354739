/**
 Provisioning a sprite: a sequence of calls that stops at the first failure and then
 deletes the sprite. Calls go to a service whose answers are given in advance.
 */
module SpritesProvisioning {
  import opened Prelude
  import opened TextLines

  const SERVICE := "openclaw"
  const GATEWAY_PORT := 18789
  const ENV_DIR := "/etc/slopbox"
  const ENV_PATH := "/etc/slopbox/env"

  datatype FileMount = FileMount(path: string, content: string)

  /** env lists the variables in the order in which the hash map yields them. */
  datatype Spec = Spec(name: string, env: seq<(string, string)>, files: seq<FileMount>)

  datatype Call =
    | CreateSprite(name: string)
    | Exec(sprite: string, cmd: seq<string>, stdin: Option<string>)
    | CreateService(sprite: string, service: string, program: string, args: seq<string>, needs: seq<string>, port: nat)
    | StartService(sprite: string, service: string)
    | GetSprite(sprite: string)
    | DeleteSprite(sprite: string)

  /** What comes back: an exit code for exec, the sprite's name and address for create and get. */
  datatype Answer = TransportError | Answered(exit: Option<int>, name: string, url: string)

  datatype Entry = Entry(call: Call, ok: bool)

  datatype Outcome = Provisioned(id: string, address: string) | Failed

  predicate Succeeds(call: Call, a: Answer) {
    a.Answered? && (call.Exec? ==> a.exit == Some(0))
  }

  // -- The calls of a provisioning that goes well -----------------------------------------

  function LastSlash(path: string): (r: Option<nat>)
    ensures r.Some? ==> r.value < |path| && path[r.value] == '/' && forall k :: r.value < k < |path| ==> path[k] != '/'
    ensures r.None? ==> '/' !in path
    decreases |path|
  {
    if path == "" then None
    else if path[|path| - 1] == '/' then Some(|path| - 1)
    else LastSlash(path[..|path| - 1])
  }

  /** rsplit_once('/'), without the part after the slash. */
  function Parent(path: string): Option<string> {
    match LastSlash(path)
    case None => None
    case Some(i) => Some(path[..i])
  }

  function Mkdir(sprite: string, dir: string): Call {
    Exec(sprite, ["mkdir", "-p", dir], None)
  }

  function Tee(sprite: string, path: string, content: string): Call {
    Exec(sprite, ["tee", path], Some(content))
  }

  const APT := "apt-get update && apt-get install -y docker.io"
  const DOCKERD :=
    "dockerd &>/dev/null & for i in $(seq 1 30); do docker info &>/dev/null && break; sleep 1; done; "
    + "docker info &>/dev/null"

  function DockerCalls(sprite: string): seq<Call> {
    [Exec(sprite, ["sh", "-c", APT], None), Exec(sprite, ["sh", "-c", DOCKERD], None)]
  }

  function InstallCalls(sprite: string): seq<Call> {
    DockerCalls(sprite) + [Exec(sprite, ["npm", "install", "-g", "@anthropic/openclaw"], None)]
  }

  function ParentCalls(sprite: string, path: string): seq<Call> {
    match Parent(path)
    case None => []
    case Some(dir) => if dir == "" then [] else [Mkdir(sprite, dir)]
  }

  function FileCalls(sprite: string, f: FileMount): seq<Call> {
    ParentCalls(sprite, f.path) + [Tee(sprite, f.path, f.content)]
  }

  function AllFileCalls(sprite: string, files: seq<FileMount>): seq<Call>
    decreases |files|
  {
    if files == [] then []
    else AllFileCalls(sprite, files[..|files| - 1]) + FileCalls(sprite, files[|files| - 1])
  }

  function EnvContent(env: seq<(string, string)>): string
    decreases |env|
  {
    if env == [] then ""
    else
      var (k, v) := env[|env| - 1];
      EnvContent(env[..|env| - 1]) + ("export " + k + "=" + v + "\n")
  }

  function EnvCalls(sprite: string, env: seq<(string, string)>): seq<Call> {
    if env == [] then [] else [Mkdir(sprite, ENV_DIR), Tee(sprite, ENV_PATH, EnvContent(env))]
  }

  function ServiceCommand(env: seq<(string, string)>): string {
    if env == [] then "exec openclaw gateway run" else "source /etc/slopbox/env && exec openclaw gateway run"
  }

  /** The gateway run by a shell, reachable on its port. */
  function Launch(sprite: string, env: seq<(string, string)>): Call {
    CreateService(sprite, SERVICE, "sh", ["-c", ServiceCommand(env)], [], GATEWAY_PORT)
  }

  function ServiceCalls(sprite: string, spec: Spec): seq<Call> {
    [Launch(sprite, spec.env), StartService(sprite, SERVICE), GetSprite(sprite)]
  }

  function WriteCalls(sprite: string, spec: Spec): seq<Call> {
    AllFileCalls(sprite, spec.files) + EnvCalls(sprite, spec.env)
  }

  function Steps(sprite: string, spec: Spec): seq<Call> {
    InstallCalls(sprite) + WriteCalls(sprite, spec) + ServiceCalls(sprite, spec)
  }

  // -- Calls against given answers -----------------------------------------------------------

  type Answers = nat -> Answer

  /** The calls up to and including the first that fails; the n-th call ever made gets the n-th answer. */
  function Played(answers: Answers, n: nat, calls: seq<Call>): (r: seq<Entry>)
    ensures |r| <= |calls|
    decreases |calls|
  {
    if calls == [] then []
    else
      var ok := Succeeds(calls[0], answers(n));
      [Entry(calls[0], ok)] + if ok then Played(answers, n + 1, calls[1..]) else []
  }

  predicate AllSucceed(answers: Answers, n: nat, calls: seq<Call>)
    decreases |calls|
  {
    calls == [] || (Succeeds(calls[0], answers(n)) && AllSucceed(answers, n + 1, calls[1..]))
  }

  lemma {:induction false} PlayedEntries(answers: Answers, n: nat, calls: seq<Call>)
    ensures var r := Played(answers, n, calls);
            && (forall i :: 0 <= i < |r| ==> r[i].call == calls[i])
            && (forall i :: 0 <= i < |r| - 1 ==> r[i].ok)
            && (AllSucceed(answers, n, calls) ==> |r| == |calls| && forall i :: 0 <= i < |r| ==> r[i].ok)
            && (!AllSucceed(answers, n, calls) ==> r != [] && !r[|r| - 1].ok)
    decreases |calls|
  {
    hide Succeeds;
    if calls != [] {
      PlayedEntries(answers, n + 1, calls[1..]);
    }
  }

  lemma {:induction false} LastSucceeds(answers: Answers, n: nat, calls: seq<Call>)
    requires AllSucceed(answers, n, calls) && calls != []
    ensures Succeeds(calls[|calls| - 1], answers(n + |calls| - 1))
    decreases |calls|
  {
    if |calls| > 1 {
      LastSucceeds(answers, n + 1, calls[1..]);
    }
  }

  lemma PlayedFirst(answers: Answers, n: nat, calls: seq<Call>)
    ensures calls == [] ==> Played(answers, n, calls) == [] && AllSucceed(answers, n, calls)
    ensures calls != [] ==>
              var ok := Succeeds(calls[0], answers(n));
              && Played(answers, n, calls)
                 == [Entry(calls[0], ok)] + (if ok then Played(answers, n + 1, calls[1..]) else [])
              && (AllSucceed(answers, n, calls) <==> ok && AllSucceed(answers, n + 1, calls[1..]))
  {
  }

  lemma {:induction false} PlayedConcat(answers: Answers, n: nat, a: seq<Call>, b: seq<Call>)
    ensures Played(answers, n, a + b)
         == Played(answers, n, a) + if AllSucceed(answers, n, a) then Played(answers, n + |a|, b) else []
    ensures AllSucceed(answers, n, a + b) <==> AllSucceed(answers, n, a) && AllSucceed(answers, n + |a|, b)
    ensures AllSucceed(answers, n, a) ==> |Played(answers, n, a)| == |a|
    decreases |a|
  {
    hide Succeeds, Played, AllSucceed;
    PlayedFirst(answers, n, a);
    if a == [] {
      assert a + b == b;
    } else {
      assert (a + b)[0] == a[0] && (a + b)[1..] == a[1..] + b && n + 1 + |a[1..]| == n + |a|;
      PlayedFirst(answers, n, a + b);
      PlayedConcat(answers, n + 1, a[1..], b);
    }
  }

  /** Every call of create_vps, and what it returns. */
  function Transcript(answers: Answers, n: nat, spec: Spec): (seq<Entry>, Outcome) {
    var create := CreateSprite(spec.name);
    if !Succeeds(create, answers(n)) then ([Entry(create, false)], Failed)
    else
      var name := answers(n).name;
      var steps := Steps(name, spec);
      var played := [Entry(create, true)] + Played(answers, n + 1, steps);
      if AllSucceed(answers, n + 1, steps) then
        var last := answers(n + |steps|);
        (played, if last.Answered? then Provisioned(last.name, last.url) else Failed)
      else
        var delete := DeleteSprite(name);
        (played + [Entry(delete, Succeeds(delete, answers(n + |played|)))], Failed)
  }

  // -- All or compensate -----------------------------------------------------------------------

  /** Installing and writing are done by exec alone. */
  lemma OnlyExec(sprite: string, spec: Spec)
    ensures forall c :: c in InstallCalls(sprite) + WriteCalls(sprite, spec) ==> c.Exec?
  {
    hide AllFileCalls;
    FileCallsExec(sprite, spec.files);
  }

  lemma {:induction false} FileCallsExec(sprite: string, files: seq<FileMount>)
    ensures forall c :: c in AllFileCalls(sprite, files) ==> c.Exec?
    decreases |files|
  {
    if files != [] {
      FileCallsExec(sprite, files[..|files| - 1]);
    }
  }

  lemma NoDeleteInSteps(sprite: string, spec: Spec)
    ensures forall c :: c in Steps(sprite, spec) ==> !c.DeleteSprite? && !c.CreateSprite?
  {
    hide InstallCalls, WriteCalls;
    OnlyExec(sprite, spec);
  }

  /**
   Once the sprite exists, a failed run ends with the call that deletes it, right after
   the one call that failed; a successful run consists of every step, all of them
   successful, and deletes nothing.
   */
  lemma AllOrCompensate(answers: Answers, n: nat, spec: Spec)
    requires Succeeds(CreateSprite(spec.name), answers(n))
    ensures var (log, outcome) := Transcript(answers, n, spec);
            var name := answers(n).name;
            && (outcome.Failed? ==>
                  && |log| > 2 && log[|log| - 1].call == DeleteSprite(name) && !log[|log| - 2].ok
                  && forall i :: 0 <= i < |log| - 2 ==> log[i].ok)
            && (outcome.Provisioned? ==>
                  && |log| == 1 + |Steps(name, spec)|
                  && forall i :: 0 <= i < |log| ==> log[i].ok && !log[i].call.DeleteSprite?)
  {
    hide Steps;
    var name := answers(n).name;
    var steps := Steps(name, spec);
    PlayedEntries(answers, n + 1, steps);
    NoDeleteInSteps(name, spec);
    if AllSucceed(answers, n + 1, steps) {
      GetsLast(name, spec);
      LastSucceeds(answers, n + 1, steps);
    }
  }

  lemma GetsLast(sprite: string, spec: Spec)
    ensures var steps := Steps(sprite, spec); |steps| > 0 && steps[|steps| - 1] == GetSprite(sprite)
  {
  }

  // -- The files ---------------------------------------------------------------------------

  predicate Writes(c: Call) {
    c.Exec? && |c.cmd| == 2 && c.cmd[0] == "tee" && c.stdin.Some?
  }

  /** What the calls write, on top of the files that are there. */
  function Written(files: map<string, string>, calls: seq<Call>): map<string, string>
    decreases |calls|
  {
    if calls == [] then files
    else
      var before, last := Written(files, calls[..|calls| - 1]), calls[|calls| - 1];
      if Writes(last) then before[last.cmd[1] := last.stdin.value] else before
  }

  /** The files on the sprite after the logged calls; only successful ones count. */
  function FilesAfter(log: seq<Entry>): map<string, string>
    decreases |log|
  {
    if log == [] then map[]
    else
      var before, last := FilesAfter(log[..|log| - 1]), log[|log| - 1];
      if last.ok && Writes(last.call) then before[last.call.cmd[1] := last.call.stdin.value] else before
  }

  /** Later requests for the same path win. */
  function Requested(files: seq<FileMount>): map<string, string>
    decreases |files|
  {
    if files == [] then map[]
    else var last := files[|files| - 1]; Requested(files[..|files| - 1])[last.path := last.content]
  }

  function Wanted(spec: Spec): map<string, string> {
    if spec.env == [] then Requested(spec.files)
    else Requested(spec.files)[ENV_PATH := EnvContent(spec.env)]
  }

  lemma {:induction false} WrittenConcat(files: map<string, string>, a: seq<Call>, b: seq<Call>)
    ensures Written(files, a + b) == Written(Written(files, a), b)
    decreases |b|
  {
    hide Writes;
    if b == [] {
      assert a + b == a;
    } else {
      assert (a + b)[..|a + b| - 1] == a + b[..|b| - 1];
      WrittenConcat(files, a, b[..|b| - 1]);
    }
  }

  lemma {:induction false} NothingWritten(files: map<string, string>, calls: seq<Call>)
    requires forall c :: c in calls ==> !Writes(c)
    ensures Written(files, calls) == files
    decreases |calls|
  {
    if calls != [] {
      NothingWritten(files, calls[..|calls| - 1]);
    }
  }

  lemma TeeWrites(files: map<string, string>, head: seq<Call>, sprite: string, path: string, content: string)
    requires forall c :: c in head ==> !Writes(c)
    ensures Written(files, head + [Tee(sprite, path, content)]) == files[path := content]
  {
    NothingWritten(files, head);
    assert (head + [Tee(sprite, path, content)])[..|head|] == head;
  }

  lemma {:induction false} FileCallsWrite(sprite: string, files: seq<FileMount>)
    ensures Written(map[], AllFileCalls(sprite, files)) == Requested(files)
    decreases |files|
  {
    hide Written, Writes, Parent;
    if files == [] {
      NothingWritten(map[], []);
    } else {
      var init, last := files[..|files| - 1], files[|files| - 1];
      FileCallsWrite(sprite, init);
      WrittenConcat(map[], AllFileCalls(sprite, init), FileCalls(sprite, last));
      ParentsNotWritten(sprite, last.path);
      TeeWrites(Requested(init), ParentCalls(sprite, last.path), sprite, last.path, last.content);
    }
  }

  lemma ParentsNotWritten(sprite: string, path: string)
    ensures forall c :: c in ParentCalls(sprite, path) ==> !Writes(c)
  {
  }

  lemma StepsWrite(sprite: string, spec: Spec)
    ensures Written(map[], Steps(sprite, spec)) == Wanted(spec)
  {
    hide Written, AllFileCalls, InstallCalls, ServiceCalls, Writes, EnvContent;
    var install, write := InstallCalls(sprite), WriteCalls(sprite, spec);
    var files := AllFileCalls(sprite, spec.files);
    InstallWritesNothing(sprite, spec);
    NothingWritten(map[], install);
    FileCallsWrite(sprite, spec.files);
    WrittenConcat(map[], files, EnvCalls(sprite, spec.env));
    if spec.env == [] {
      NothingWritten(Requested(spec.files), []);
    } else {
      MkdirWritesNothing(sprite, ENV_DIR);
      TeeWrites(Requested(spec.files), [Mkdir(sprite, ENV_DIR)], sprite, ENV_PATH, EnvContent(spec.env));
      assert EnvCalls(sprite, spec.env) == [Mkdir(sprite, ENV_DIR)] + [Tee(sprite, ENV_PATH, EnvContent(spec.env))];
    }
    WrittenConcat(map[], install, write);
    WrittenConcat(map[], install + write, ServiceCalls(sprite, spec));
    NothingWritten(Wanted(spec), ServiceCalls(sprite, spec));
  }

  lemma InstallWritesNothing(sprite: string, spec: Spec)
    ensures forall c :: c in InstallCalls(sprite) ==> !Writes(c)
    ensures forall c :: c in ServiceCalls(sprite, spec) ==> !Writes(c)
  {
  }

  lemma MkdirWritesNothing(sprite: string, dir: string)
    ensures !Writes(Mkdir(sprite, dir))
  {
  }

  lemma {:induction false} AllOkWritten(log: seq<Entry>, calls: seq<Call>)
    requires |log| == |calls| && forall i :: 0 <= i < |log| ==> log[i].ok && log[i].call == calls[i]
    ensures FilesAfter(log) == Written(map[], calls)
    decreases |log|
  {
    hide Writes;
    if log != [] {
      AllOkWritten(log[..|log| - 1], calls[..|calls| - 1]);
    }
  }

  /** The last request for each path, and the env file over them when there are variables: these and no other files. */
  lemma FilesInPlace(answers: Answers, n: nat, spec: Spec)
    ensures var (log, outcome) := Transcript(answers, n, spec);
            outcome.Provisioned? ==> FilesAfter(log) == Wanted(spec)
  {
    hide Steps, Written, FilesAfter, Wanted;
    var (log, outcome) := Transcript(answers, n, spec);
    if outcome.Provisioned? {
      var steps := Steps(answers(n).name, spec);
      var calls := [CreateSprite(spec.name)] + steps;
      PlayedEntries(answers, n + 1, steps);
      AllOkWritten(log, calls);
      NothingWritten(map[], [CreateSprite(spec.name)]);
      WrittenConcat(map[], [CreateSprite(spec.name)], steps);
      StepsWrite(answers(n).name, spec);
    }
  }

  /** Requested keeps, for each path, the content of the last request for it. */
  lemma {:induction false} LastRequestWins(files: seq<FileMount>, i: nat)
    requires i < |files| && forall j :: i < j < |files| ==> files[j].path != files[i].path
    ensures files[i].path in Requested(files) && Requested(files)[files[i].path] == files[i].content
    decreases |files|
  {
    if i < |files| - 1 {
      LastRequestWins(files[..|files| - 1], i);
    }
  }

  lemma {:induction false} OnlyRequested(files: seq<FileMount>, path: string)
    ensures path in Requested(files) <==> exists i :: 0 <= i < |files| && files[i].path == path
    decreases |files|
  {
    if files != [] {
      var init := files[..|files| - 1];
      OnlyRequested(init, path);
      if i: nat :| i < |init| && init[i].path == path {
        assert files[i].path == path;
      }
    }
  }

  // -- Order ------------------------------------------------------------------------------

  /** Each write into a directory other than the root comes right after the call that makes the directory. */
  ghost predicate ParentsFirst(calls: seq<Call>) {
    forall i :: 0 <= i < |calls| && Writes(calls[i]) ==> ParentMade(calls, i)
  }

  predicate ParentMade(calls: seq<Call>, i: nat)
    requires i < |calls| && Writes(calls[i])
  {
    var parent := Parent(calls[i].cmd[1]);
    parent.Some? && parent.value != "" ==> i > 0 && calls[i - 1] == Mkdir(calls[i].sprite, parent.value)
  }

  lemma ParentsFirstConcat(a: seq<Call>, b: seq<Call>)
    requires ParentsFirst(a) && ParentsFirst(b)
    ensures ParentsFirst(a + b)
  {
    hide Parent, Writes;
    forall i | 0 <= i < |a + b| && Writes((a + b)[i]) ensures ParentMade(a + b, i) {
      if i < |a| {
        assert ParentMade(a, i);
      } else {
        assert ParentMade(b, i - |a|);
      }
    }
  }

  lemma {:induction false} FileCallsParents(sprite: string, files: seq<FileMount>)
    ensures ParentsFirst(AllFileCalls(sprite, files))
    decreases |files|
  {
    hide Parent;
    if files != [] {
      FileCallsParents(sprite, files[..|files| - 1]);
      assert ParentsFirst(FileCalls(sprite, files[|files| - 1]));
      ParentsFirstConcat(AllFileCalls(sprite, files[..|files| - 1]), FileCalls(sprite, files[|files| - 1]));
    }
  }

  lemma EnvParent()
    ensures Parent(ENV_PATH) == Some(ENV_DIR)
  {
    assert ENV_PATH[12] == '/' && ENV_PATH[13] != '/' && ENV_PATH[14] != '/' && ENV_PATH[15] != '/';
    assert ENV_PATH[..12] == ENV_DIR;
  }

  lemma StepsParents(sprite: string, spec: Spec)
    ensures ParentsFirst(Steps(sprite, spec))
  {
    hide Parent, AllFileCalls, InstallCalls, ServiceCalls, EnvContent;
    InstallWritesNothing(sprite, spec);
    FileCallsParents(sprite, spec.files);
    EnvParent();
    assert ParentsFirst(InstallCalls(sprite)) && ParentsFirst(ServiceCalls(sprite, spec));
    assert ParentsFirst(EnvCalls(sprite, spec.env));
    ParentsFirstConcat(AllFileCalls(sprite, spec.files), EnvCalls(sprite, spec.env));
    ParentsFirstConcat(InstallCalls(sprite), WriteCalls(sprite, spec));
    ParentsFirstConcat(InstallCalls(sprite) + WriteCalls(sprite, spec), ServiceCalls(sprite, spec));
  }

  lemma ServiceStepsLast(sprite: string, spec: Spec)
    ensures var steps := Steps(sprite, spec);
            && |steps| >= 3
            && (forall i :: 0 <= i < |steps| ==> (steps[i].StartService? <==> i == |steps| - 2))
            && steps[|steps| - 2] == StartService(sprite, SERVICE)
            && steps[|steps| - 3] == Launch(sprite, spec.env)
  {
    hide InstallCalls, WriteCalls;
    OnlyExec(sprite, spec);
    var steps, exec := Steps(sprite, spec), InstallCalls(sprite) + WriteCalls(sprite, spec);
    assert forall i :: 0 <= i < |exec| ==> steps[i] == exec[i] && exec[i] in exec;
  }

  /**
   In every run, good or bad, a service is started only right after it was created, and a
   file is written only right after its directory was made.
   */
  lemma StepsInOrder(answers: Answers, n: nat, spec: Spec, j: nat)
    requires j < |Transcript(answers, n, spec).0|
    ensures var log := Transcript(answers, n, spec).0;
            && (log[j].call.StartService? ==>
                  && j > 0 && log[j - 1].ok
                  && log[j - 1].call == Launch(log[j].call.sprite, spec.env))
            && (Writes(log[j].call) && HasParent(log[j].call.cmd[1]) ==>
                  && j > 0 && log[j - 1].ok
                  && log[j - 1].call == Mkdir(log[j].call.sprite, Parent(log[j].call.cmd[1]).value))
  {
    hide Steps, Parent, Mkdir, Launch, Played, AllSucceed;
    if Succeeds(CreateSprite(spec.name), answers(n)) {
      var name := answers(n).name;
      var steps := Steps(name, spec);
      var log, played := Transcript(answers, n, spec).0, Played(answers, n + 1, steps);
      PlayedEntries(answers, n + 1, steps);
      StepsParents(name, spec);
      ServiceStepsLast(name, spec);
      if 0 < j <= |played| {
        assert log[j].call == steps[j - 1];
        assert Writes(steps[j - 1]) ==> ParentMade(steps, j - 1);
        assert j > 1 ==> log[j - 1] == played[j - 2] && played[j - 2].call == steps[j - 2];
      }
    }
  }

  /** The file is written only right after its own directory was made. */
  lemma WrittenIntoMadeDirectory(answers: Answers, n: nat, spec: Spec, j: nat, sprite: string, dir: string,
                                 name: string, content: string)
    requires j < |Transcript(answers, n, spec).0| && dir != "" && '/' !in name
    requires Transcript(answers, n, spec).0[j].call == Exec(sprite, ["tee", dir + "/" + name], Some(content))
    ensures j > 0 && Transcript(answers, n, spec).0[j - 1].ok
    ensures Transcript(answers, n, spec).0[j - 1].call == Exec(sprite, ["mkdir", "-p", dir], None)
  {
    hide Transcript;
    StepsInOrder(answers, n, spec, j);
    ParentOf(dir, name);
  }

  lemma ParentOf(dir: string, name: string)
    requires '/' !in name
    ensures Parent(dir + "/" + name) == Some(dir)
  {
    var path := dir + "/" + name;
    assert path[|dir|] == '/' && forall k :: |dir| < k < |path| ==> path[k] == name[k - |dir| - 1];
    assert path[..|dir|] == dir;
  }

  /** The path names a directory other than the root. */
  predicate HasParent(path: string) {
    Parent(path).Some? && Parent(path).value != ""
  }

  // -- The log in full ------------------------------------------------------------------------

  lemma {:induction false} PlayedOk(answers: Answers, n: nat, calls: seq<Call>, j: nat)
    requires j < |Played(answers, n, calls)|
    ensures var e := Played(answers, n, calls)[j]; e.ok == Succeeds(e.call, answers(n + j))
    decreases |calls|
  {
    hide Succeeds;
    if j > 0 {
      PlayedOk(answers, n + 1, calls[1..], j - 1);
    }
  }

  /** A call went well exactly when it was answered and, if it ran a command, the exit code was zero. */
  lemma OkMeans(answers: Answers, n: nat, spec: Spec, j: nat)
    requires j < |Transcript(answers, n, spec).0|
    ensures var e := Transcript(answers, n, spec).0[j];
            e.ok <==> answers(n + j).Answered? && (e.call.Exec? ==> answers(n + j).exit == Some(0))
    ensures Transcript(answers, n, spec).0[0].call == CreateSprite(spec.name)
  {
    hide Steps, Played, AllSucceed;
    if Succeeds(CreateSprite(spec.name), answers(n)) {
      var steps := Steps(answers(n).name, spec);
      var played := Played(answers, n + 1, steps);
      if 0 < j <= |played| {
        PlayedOk(answers, n + 1, steps, j - 1);
      }
    }
  }

  /** mkdir -p of a directory, or tee of a file. */
  predicate MakesOrWrites(c: Call, sprite: string) {
    && c.Exec? && c.sprite == sprite
    && ((|c.cmd| == 3 && c.cmd[..2] == ["mkdir", "-p"] && c.stdin.None?)
        || (|c.cmd| == 2 && c.cmd[0] == "tee" && c.stdin.Some?))
  }

  lemma {:induction false} FileCallsOnly(sprite: string, files: seq<FileMount>)
    ensures forall c :: c in AllFileCalls(sprite, files) ==> MakesOrWrites(c, sprite)
    decreases |files|
  {
    hide Parent;
    if files != [] {
      FileCallsOnly(sprite, files[..|files| - 1]);
    }
  }

  lemma WriteCallsOnly(sprite: string, spec: Spec)
    ensures forall c :: c in WriteCalls(sprite, spec) ==> MakesOrWrites(c, sprite)
  {
    hide AllFileCalls, EnvContent;
    FileCallsOnly(sprite, spec.files);
  }

  /** The sprite, Docker and its daemon, OpenClaw. */
  predicate Installs(calls: seq<Call>, requested: string, sprite: string) {
    && |calls| == 4 && calls[0] == CreateSprite(requested)
    && calls[1] == Exec(sprite, ["sh", "-c", "apt-get update && apt-get install -y docker.io"], None)
    && calls[2] == Exec(sprite, ["sh", "-c",
         "dockerd &>/dev/null & for i in $(seq 1 30); do docker info &>/dev/null && break; sleep 1; done; "
         + "docker info &>/dev/null"], None)
    && calls[3] == Exec(sprite, ["npm", "install", "-g", "@anthropic/openclaw"], None)
  }

  /** The gateway as a service in a shell on port 18789, its start, and the question for the address. */
  predicate Serves(calls: seq<Call>, sprite: string, env: seq<(string, string)>) {
    && |calls| == 3
    && calls[0] == CreateService(sprite, "openclaw", "sh", ["-c",
         if env == [] then "exec openclaw gateway run" else "source /etc/slopbox/env && exec openclaw gateway run"],
         [], 18789)
    && calls[1] == StartService(sprite, "openclaw") && calls[2] == GetSprite(sprite)
  }

  function Calls(log: seq<Entry>): seq<Call> {
    seq(|log|, i requires 0 <= i < |log| => log[i].call)
  }

  lemma LogIsSteps(answers: Answers, n: nat, spec: Spec)
    requires Transcript(answers, n, spec).1.Provisioned?
    ensures var (log, outcome) := Transcript(answers, n, spec);
            answers(n).Answered?
            && var steps := Steps(answers(n).name, spec);
            && |log| == |steps| + 1 && log[0].call == CreateSprite(spec.name)
            && (forall i :: 0 < i < |log| ==> log[i].call == steps[i - 1])
            && answers(n + |steps|).Answered?
            && outcome == Provisioned(answers(n + |steps|).name, answers(n + |steps|).url)
  {
    hide Steps;
    PlayedEntries(answers, n + 1, Steps(answers(n).name, spec));
  }

  /** Install, then only directories and files, then serve. */
  predicate SpelledOut(calls: seq<Call>, spec: Spec, sprite: string) {
    && |calls| >= 7
    && Installs(calls[..4], spec.name, sprite)
    && (forall i :: 4 <= i < |calls| - 3 ==> MakesOrWrites(calls[i], sprite))
    && Serves(calls[|calls| - 3..], sprite, spec.env)
  }

  lemma StepsSpelledOut(sprite: string, spec: Spec)
    ensures SpelledOut([CreateSprite(spec.name)] + Steps(sprite, spec), spec, sprite)
  {
    hide MakesOrWrites, InstallCalls, WriteCalls, ServiceCalls, Installs, Serves, SpelledOut;
    InstallsSpelledOut(spec.name, sprite);
    ServesSpelledOut(sprite, spec);
    WriteCallsOnly(sprite, spec);
    InThreeParts(InstallCalls(sprite), WriteCalls(sprite, spec), ServiceCalls(sprite, spec), spec, sprite);
  }

  lemma InThreeParts(install: seq<Call>, write: seq<Call>, serve: seq<Call>, spec: Spec, sprite: string)
    requires |install| == 3 && Installs([CreateSprite(spec.name)] + install, spec.name, sprite)
    requires forall c :: c in write ==> MakesOrWrites(c, sprite)
    requires |serve| == 3 && Serves(serve, sprite, spec.env)
    ensures SpelledOut([CreateSprite(spec.name)] + (install + write + serve), spec, sprite)
  {
    hide MakesOrWrites, Installs, Serves;
    var calls := [CreateSprite(spec.name)] + (install + write + serve);
    assert calls[..4] == [CreateSprite(spec.name)] + install && calls[|calls| - 3..] == serve;
    forall i | 4 <= i < |calls| - 3 ensures MakesOrWrites(calls[i], sprite) {
      assert calls[i] == write[i - 4];
    }
  }

  /** A successful run, call by call; it returns the name and the address in the last answer. */
  lemma SuccessSpelledOut(answers: Answers, n: nat, spec: Spec)
    ensures var (log, outcome) := Transcript(answers, n, spec);
            outcome.Provisioned? ==>
              && log != [] && answers(n).Answered? && answers(n + |log| - 1).Answered?
              && SpelledOut(Calls(log), spec, answers(n).name)
              && outcome == Provisioned(answers(n + |log| - 1).name, answers(n + |log| - 1).url)
  {
    hide Transcript, SpelledOut, Steps;
    var (log, outcome) := Transcript(answers, n, spec);
    if outcome.Provisioned? {
      LogIsSteps(answers, n, spec);
      StepsSpelledOut(answers(n).name, spec);
      assert Calls(log) == [CreateSprite(spec.name)] + Steps(answers(n).name, spec);
    }
  }

  lemma InstallsSpelledOut(requested: string, sprite: string)
    ensures |InstallCalls(sprite)| == 3 && Installs([CreateSprite(requested)] + InstallCalls(sprite), requested, sprite)
  {
  }

  lemma ServesSpelledOut(sprite: string, spec: Spec)
    ensures |ServiceCalls(sprite, spec)| == 3 && Serves(ServiceCalls(sprite, spec), sprite, spec.env)
  {
  }

  /** The env file grows by one export line for each variable. */
  lemma EnvFileGrows(env: seq<(string, string)>, k: string, v: string)
    ensures EnvContent([]) == ""
    ensures EnvContent(env + [(k, v)]) == EnvContent(env) + ("export " + k + "=" + v + "\n")
  {
    assert (env + [(k, v)])[..|env|] == env;
  }

  predicate NoNewline(variable: (string, string)) {
    '\n' !in variable.0 && '\n' !in variable.1
  }

  function Export(variable: (string, string)): string {
    "export " + variable.0 + "=" + variable.1
  }

  /** Without newlines of their own, the variables can be read back, line by line. */
  lemma {:induction false} EnvFileLines(env: seq<(string, string)>)
    requires forall i :: 0 <= i < |env| ==> NoNewline(env[i])
    ensures Complete(EnvContent(env)) && |Lines(EnvContent(env))| == |env|
    ensures forall i :: 0 <= i < |env| ==> Lines(EnvContent(env))[i] == Export(env[i])
    decreases |env|
  {
    if env != [] {
      hide LinesFrom, Export, EnvContent, Complete;
      var init, last := env[..|env| - 1], env[|env| - 1];
      EnvFileLines(init);
      assert init + [(last.0, last.1)] == env;
      EnvFileGrows(init, last.0, last.1);
      ExportIsLine(last);
      OneLineMore(EnvContent(init), Export(last));
    }
  }

  lemma ExportIsLine(variable: (string, string))
    ensures "export " + variable.0 + "=" + variable.1 + "\n" == Export(variable) + "\n"
    ensures NoNewline(variable) ==> '\n' !in Export(variable)
  {
  }

  // -- The provider as it runs ------------------------------------------------------------------

  /** The service, answering call by call. */
  class SpritesClient {
    const answers: Answers
    var log: seq<Entry>

    constructor (answers: Answers)
      ensures this.answers == answers && log == []
    {
      this.answers := answers;
      log := [];
    }

    /** The calls were made, up to and including the first that failed. */
    twostate predicate Made(calls: seq<Call>, ok: bool)
      reads this
    {
      && (ok <==> AllSucceed(answers, |old(log)|, calls))
      && log == old(log) + Played(answers, |old(log)|, calls)
    }

    method Perform(call: Call) returns (answer: Answer)
      modifies this
      ensures answer == answers(|old(log)|)
      ensures log == old(log) + [Entry(call, Succeeds(call, answer))]
      ensures Made([call], Succeeds(call, answer))
    {
      answer := answers(|log|);
      log := log + [Entry(call, Succeeds(call, answer))];
      assert [call][1..] == [];
    }

    /** Fails on a transport error and on any exit code but zero. */
    method ExecChecked(sprite: string, cmd: seq<string>) returns (ok: bool)
      modifies this
      ensures Made([Exec(sprite, cmd, None)], ok)
    {
      var answer := Perform(Exec(sprite, cmd, None));
      ok := answer.Answered? && answer.exit == Some(0);
    }

    method WriteFile(sprite: string, path: string, content: string) returns (ok: bool)
      modifies this
      ensures Made([Tee(sprite, path, content)], ok)
    {
      var answer := Perform(Tee(sprite, path, content));
      ok := answer.Answered? && answer.exit == Some(0);
    }

    method InstallDocker(sprite: string) returns (ok: bool)
      modifies this
      ensures Made(DockerCalls(sprite), ok)
    {
      hide Played, AllSucceed;
      ghost var calls := DockerCalls(sprite);
      PlayedConcat(answers, |log|, calls[..1], calls[1..]);
      assert calls == calls[..1] + calls[1..] && calls[..1] == [calls[0]] && calls[1..] == [calls[1]];
      ok := ExecChecked(sprite, ["sh", "-c", APT]);
      if ok {
        ok := ExecChecked(sprite, ["sh", "-c", DOCKERD]);
      }
    }

    method WriteFiles(sprite: string, files: seq<FileMount>) returns (ok: bool)
      modifies this
      ensures Made(AllFileCalls(sprite, files), ok)
    {
      hide Played, AllSucceed, AllFileCalls, FileCalls;
      NoFileCalls(answers, |log|, sprite);
      assert files[..0] == [];
      for i := 0 to |files|
        invariant Made(AllFileCalls(sprite, files[..i]), true)
      {
        NextFile(answers, |old(log)|, sprite, files, i);
        ok := WriteMounted(sprite, files[i]);
        if !ok {
          FailsEarly(answers, |old(log)|, sprite, files, i + 1);
          return;
        }
      }
      assert files[..|files|] == files;
      ok := true;
    }

    /** The parent directory first, if there is one to make. */
    method WriteMounted(sprite: string, f: FileMount) returns (ok: bool)
      modifies this
      ensures Made(FileCalls(sprite, f), ok)
    {
      hide Played, AllSucceed;
      PlayedNone(answers, |log|);
      PlayedConcat(answers, |log|, ParentCalls(sprite, f.path), [Tee(sprite, f.path, f.content)]);
      var parent := Parent(f.path);
      if parent.Some? && parent.value != "" {
        ok := ExecChecked(sprite, ["mkdir", "-p", parent.value]);
        if !ok {
          return;
        }
      }
      ok := WriteFile(sprite, f.path, f.content);
    }

    /** The env file, only if there is a variable. */
    method WriteEnv(sprite: string, env: seq<(string, string)>) returns (ok: bool)
      modifies this
      ensures Made(EnvCalls(sprite, env), ok)
    {
      hide Played, AllSucceed;
      PlayedNone(answers, |log|);
      if env == [] {
        return true;
      }
      ok := ExecChecked(sprite, ["mkdir", "-p", ENV_DIR]);
      ghost var mkdir, tee := [Mkdir(sprite, ENV_DIR)], [Tee(sprite, ENV_PATH, EnvContent(env))];
      assert EnvCalls(sprite, env) == mkdir + tee;
      PlayedConcat(answers, |old(log)|, mkdir, tee);
      if !ok {
        return;
      }
      var content := "";
      for i := 0 to |env|
        invariant content == EnvContent(env[..i])
        invariant log == old(log) + Played(answers, |old(log)|, mkdir)
      {
        assert env[..i + 1][..i] == env[..i];
        content := content + ("export " + env[i].0 + "=" + env[i].1 + "\n");
      }
      assert env[..|env|] == env;
      ok := WriteFile(sprite, ENV_PATH, content);
    }

    method StartOpenclaw(sprite: string, spec: Spec) returns (outcome: Outcome)
      modifies this
      ensures Made(ServiceCalls(sprite, spec), outcome.Provisioned?)
      ensures outcome.Provisioned? ==>
                var last := answers(|log| - 1);
                last.Answered? && outcome == Provisioned(last.name, last.url)
    {
      hide Played, AllSucceed, Succeeds;
      ServiceOutcomes();
      ghost var calls := ServiceCalls(sprite, spec);
      ThreeCalls(answers, |log|, calls[0], calls[1], calls[2]);
      var command := if spec.env == [] then "exec openclaw gateway run"
                     else "source /etc/slopbox/env && exec openclaw gateway run";
      var created := Perform(CreateService(sprite, SERVICE, "sh", ["-c", command], [], GATEWAY_PORT));
      if created.TransportError? {
        return Failed;
      }
      var started := Perform(StartService(sprite, SERVICE));
      if started.TransportError? {
        return Failed;
      }
      var got := Perform(GetSprite(sprite));
      if got.TransportError? {
        return Failed;
      }
      return Provisioned(got.name, got.url);
    }

    method InstallOpenclaw(sprite: string) returns (ok: bool)
      modifies this
      ensures Made([Exec(sprite, ["npm", "install", "-g", "@anthropic/openclaw"], None)], ok)
    {
      ok := ExecChecked(sprite, ["npm", "install", "-g", "@anthropic/openclaw"]);
    }

    /** Docker, then OpenClaw. */
    method Install(sprite: string) returns (ok: bool)
      modifies this
      ensures Made(InstallCalls(sprite), ok)
    {
      hide Played, AllSucceed, DockerCalls;
      PlayedConcat(answers, |log|, DockerCalls(sprite),
                   [Exec(sprite, ["npm", "install", "-g", "@anthropic/openclaw"], None)]);
      ok := InstallDocker(sprite);
      if ok {
        ok := InstallOpenclaw(sprite);
      }
    }

    /** The mounted files, then the env file. */
    method WriteAll(sprite: string, spec: Spec) returns (ok: bool)
      modifies this
      ensures Made(WriteCalls(sprite, spec), ok)
    {
      hide Played, AllSucceed, AllFileCalls, EnvCalls;
      PlayedConcat(answers, |log|, AllFileCalls(sprite, spec.files), EnvCalls(sprite, spec.env));
      ok := WriteFiles(sprite, spec.files);
      if ok {
        ok := WriteEnv(sprite, spec.env);
      }
    }

    /** provision_sprite: install, write, start; each failure ends it. */
    method ProvisionSprite(sprite: string, spec: Spec) returns (outcome: Outcome)
      modifies this
      ensures Made(Steps(sprite, spec), outcome.Provisioned?)
      ensures outcome.Provisioned? ==>
                var last := answers(|log| - 1);
                last.Answered? && outcome == Provisioned(last.name, last.url)
    {
      hide Played, AllSucceed, InstallCalls, WriteCalls, ServiceCalls;
      ghost var n, install, write := |log|, InstallCalls(sprite), WriteCalls(sprite, spec);
      PlayedConcat(answers, n, install, write);
      PlayedConcat(answers, n, install + write, ServiceCalls(sprite, spec));
      var ok := Install(sprite);
      if !ok {
        return Failed;
      }
      ok := WriteAll(sprite, spec);
      if !ok {
        return Failed;
      }
      outcome := StartOpenclaw(sprite, spec);
    }

    /** create_vps: any failure once the sprite exists deletes it again. */
    method CreateVps(spec: Spec) returns (outcome: Outcome)
      modifies this
      ensures var (entries, result) := Transcript(answers, |old(log)|, spec);
              log == old(log) + entries && outcome == result
    {
      hide Steps, Played, AllSucceed;
      var sprite := Perform(CreateSprite(spec.name));
      if sprite.TransportError? {
        return Failed;
      }
      PlayedAll(answers, |log|, Steps(sprite.name, spec));
      outcome := ProvisionSprite(sprite.name, spec);
      if outcome.Failed? {
        var _ := Perform(DeleteSprite(sprite.name));
      }
    }
  }

  /** Every call but exec succeeds when it is answered at all. */
  lemma ServiceOutcomes()
    ensures forall c: Call, a: Answer :: !c.Exec? ==> (Succeeds(c, a) <==> a.Answered?)
  {
  }

  lemma PlayedAll(answers: Answers, n: nat, calls: seq<Call>)
    ensures AllSucceed(answers, n, calls) ==> |Played(answers, n, calls)| == |calls|
  {
    PlayedEntries(answers, n, calls);
  }

  lemma NoFileCalls(answers: Answers, n: nat, sprite: string)
    ensures Played(answers, n, AllFileCalls(sprite, [])) == [] && AllSucceed(answers, n, AllFileCalls(sprite, []))
  {
  }

  /** Writing one file more, after those before it were written. */
  lemma NextFile(answers: Answers, n: nat, sprite: string, files: seq<FileMount>, i: nat)
    requires i < |files| && AllSucceed(answers, n, AllFileCalls(sprite, files[..i]))
    ensures var m := n + |Played(answers, n, AllFileCalls(sprite, files[..i]))|;
            var mine := FileCalls(sprite, files[i]);
            && (AllSucceed(answers, n, AllFileCalls(sprite, files[..i + 1])) <==> AllSucceed(answers, m, mine))
            && Played(answers, n, AllFileCalls(sprite, files[..i + 1]))
            == Played(answers, n, AllFileCalls(sprite, files[..i])) + Played(answers, m, mine)
  {
    hide Played, AllSucceed, FileCalls;
    assert files[..i + 1][..i] == files[..i];
    PlayedConcat(answers, n, AllFileCalls(sprite, files[..i]), FileCalls(sprite, files[i]));
  }

  lemma ThreeCalls(answers: Answers, n: nat, a: Call, b: Call, c: Call)
    ensures var okA, okB := Succeeds(a, answers(n)), Succeeds(b, answers(n + 1));
            var okC := Succeeds(c, answers(n + 2));
            && (AllSucceed(answers, n, [a, b, c]) <==> okA && okB && okC)
            && Played(answers, n, [a, b, c])
            == if !okA then [Entry(a, false)]
               else if !okB then [Entry(a, true), Entry(b, false)]
               else [Entry(a, true), Entry(b, true), Entry(c, okC)]
  {
    hide Succeeds;
    assert [a, b, c][1..] == [b, c] && [b, c][1..] == [c] && [c][1..] == [];
    assert AllSucceed(answers, n + 2, [c]) <==> Succeeds(c, answers(n + 2));
    assert Played(answers, n + 2, [c]) == [Entry(c, Succeeds(c, answers(n + 2)))];
    assert Played(answers, n + 1, [b, c])
        == [Entry(b, Succeeds(b, answers(n + 1)))]
           + if Succeeds(b, answers(n + 1)) then Played(answers, n + 2, [c]) else [];
  }

  lemma PlayedNone(answers: Answers, n: nat)
    ensures Played(answers, n, []) == [] && AllSucceed(answers, n, [])
  {
  }

  /** When a file fails, the files after it are not attempted. */
  lemma {:induction false} FailsEarly(answers: Answers, n: nat, sprite: string, files: seq<FileMount>, i: nat)
    requires i <= |files| && !AllSucceed(answers, n, AllFileCalls(sprite, files[..i]))
    ensures !AllSucceed(answers, n, AllFileCalls(sprite, files))
    ensures Played(answers, n, AllFileCalls(sprite, files)) == Played(answers, n, AllFileCalls(sprite, files[..i]))
    decreases |files|
  {
    hide Played, AllSucceed, FileCalls;
    if i == |files| {
      assert files[..i] == files;
    } else {
      var init := files[..|files| - 1];
      assert init[..i] == files[..i];
      FailsEarly(answers, n, sprite, init, i);
      PlayedConcat(answers, n, AllFileCalls(sprite, init), FileCalls(sprite, files[|files| - 1]));
    }
  }
}
