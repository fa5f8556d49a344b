/** build/update.py: the pre-push updaters that copy the version from the
    JSON metadata into the workflow badge step, setup.cfg and the package's
    `__init__.py`, run one after the other. Documents are the values the
    YAML, JSON and configparser loaders produce; reading and writing the
    files is not modelled. */
module BuildUpdate {
  import opened Outcomes
  import opened Seqs
  import opened PyValues
  import opened Exceptions
  import VersionFile

  const JobName := "update-badges"
  const StepName := "Dynamic Badges"
  const NotFoundMessage := "Could not find workflow job step name with WORKFLOW_STEP_NAME='Dynamic Badges'"

  /** `v[key]` with a string key: a missing key is a `KeyError`; a value that
      is not a mapping cannot be indexed by a string (`TypeError`). */
  function Subscript(v: PyValue, key: string): (r: Result<PyValue, Error>)
    ensures r.Ok? <==> v.VDict? && key in v.entries
    ensures r.Ok? ==> r.value == v.entries[key]
    ensures v.VDict? && key !in v.entries ==> r == Err(KeyError(key))
    ensures !v.VDict? ==> r == Err(TypeError(TypeOf(v)))
  {
    if !v.VDict? then Err(TypeError(TypeOf(v)))
    else if key !in v.entries then Err(KeyError(key))
    else Ok(v.entries[key])
  }

  /** `v[key] = x`: only a mapping accepts a string key. */
  function SetItem(v: PyValue, key: string, x: PyValue): (r: Result<PyValue, Error>)
    ensures r.Ok? <==> v.VDict?
    ensures r.Ok? ==> r.value == VDict(v.entries[key := x])
    ensures !v.VDict? ==> r == Err(TypeError(TypeOf(v)))
  {
    if v.VDict? then Ok(VDict(v.entries[key := x])) else Err(TypeError(TypeOf(v)))
  }

  /** The step is the badge step: `step["name"] == WORKFLOW_STEP_NAME`. */
  predicate Named(step: PyValue) {
    step.VDict? && "name" in step.entries && step.entries["name"] == VStr(StepName)
  }

  /** The step's name can be read but is another one. */
  predicate OtherStep(step: PyValue) {
    step.VDict? && "name" in step.entries && step.entries["name"] != VStr(StepName)
  }

  /** The `for step in steps` loop over a list, from position `k`: the index
      of the badge step, the error reading a step's name raises, or the
      `ValueError` of the `else` branch. */
  function LocateFrom(steps: seq<PyValue>, k: nat): (r: Result<nat, Error>)
    requires k <= |steps|
    ensures r.Ok? ==> k <= r.value < |steps| && Named(steps[r.value])
    ensures r.Ok? ==> forall j :: k <= j < r.value ==> OtherStep(steps[j])
    ensures (forall j :: k <= j < |steps| ==> OtherStep(steps[j])) <==> r == Err(ValueError(NotFoundMessage))
    decreases |steps| - k
  {
    if k == |steps| then Err(ValueError(NotFoundMessage))
    else
      var name :- Subscript(steps[k], "name");
      if name == VStr(StepName) then Ok(k) else LocateFrom(steps, k + 1)
  }

  /** The loop over whatever `steps` holds. Iterating a mapping yields its
      string keys and iterating a string its characters, and a string cannot
      be indexed by "name": either is the `ValueError` when empty and a
      `TypeError` otherwise. Other values are not iterable. */
  function LocateStep(steps: PyValue): (r: Result<nat, Error>)
    ensures r.Ok? ==> steps.VList? && r.value < |steps.items| && Named(steps.items[r.value])
    ensures r.Ok? ==> forall j :: 0 <= j < r.value ==> OtherStep(steps.items[j])
  {
    match steps
    case VList(xs) => LocateFrom(xs, 0)
    case VDict(m) => if |m| == 0 then Err(ValueError(NotFoundMessage)) else Err(TypeError(Str))
    case VStr(s) => if |s| == 0 then Err(ValueError(NotFoundMessage)) else Err(TypeError(Str))
    case _ => Err(TypeError(TypeOf(steps)))
  }

  /** Where the badge step sits in the loaded workflow. */
  datatype Route = Route(jobs: PyValue, job: PyValue, steps: seq<PyValue>, index: nat, step: PyValue, with: PyValue)

  /** `loaded["jobs"][WORKFLOW_JOB_NAME]["steps"]`, the search for the step,
      and `step["with"]`, with `meta["version"]` read in between as the
      source does. */
  function Locate(loaded: PyValue, meta: PyValue): (r: Result<(Route, PyValue), Error>)
    ensures r.Ok? ==> loaded.VDict? && "jobs" in loaded.entries && r.value.0.jobs == loaded.entries["jobs"]
    ensures r.Ok? ==> var t := r.value.0;
      t.jobs.VDict? && JobName in t.jobs.entries && t.job == t.jobs.entries[JobName]
      && t.job.VDict? && "steps" in t.job.entries && t.job.entries["steps"] == VList(t.steps)
      && t.index < |t.steps| && t.step == t.steps[t.index] && Named(t.step)
      && (forall j :: 0 <= j < t.index ==> OtherStep(t.steps[j]))
      && "with" in t.step.entries && t.with == t.step.entries["with"]
    ensures r.Ok? ==> meta.VDict? && "version" in meta.entries && r.value.1 == meta.entries["version"]
  {
    var jobs :- Subscript(loaded, "jobs");
    var job :- Subscript(jobs, JobName);
    var steps :- Subscript(job, "steps");
    var i :- LocateStep(steps);
    var version :- Subscript(meta, "version");
    var with :- Subscript(steps.items[i], "with");
    Ok((Route(jobs, job, steps.items, i, steps.items[i], with), version))
  }

  /** `d[k] := x` on a mapping. */
  function Put(d: PyValue, k: string, x: PyValue): PyValue
    requires d.VDict?
  {
    VDict(d.entries[k := x])
  }

  /** `update_badge(meta)`: the workflow with `with.message` of the badge step
      set to the version, or the error raised before anything is written. */
  function UpdateBadge(loaded: PyValue, meta: PyValue): (r: Result<PyValue, Error>)
    ensures r.Ok? <==> Locate(loaded, meta).Ok? && Locate(loaded, meta).value.0.with.VDict?
  {
    var (t, version) :- Locate(loaded, meta);
    var with :- SetItem(t.with, "message", version);
    Ok(Put(loaded, "jobs", Put(t.jobs, JobName, Put(t.job, "steps",
      VList(t.steps[t.index := Put(t.step, "with", with)])))))
  }

  /** `b` is the mapping `a` with at most the entry under `k` changed or added. */
  predicate OnlyKeyChanged(a: PyValue, b: PyValue, k: string) {
    a.VDict? && b.VDict? && b.entries.Keys == a.entries.Keys + {k}
    && forall j :: j in a.entries && j != k ==> b.entries[j] == a.entries[j]
  }

  /** Only the badge step's `with.message` changes: every other job, step and
      field is left as it was, and the message reads back as the version. */
  lemma BadgeFrame(loaded: PyValue, meta: PyValue)
    requires UpdateBadge(loaded, meta).Ok?
    ensures var (t, version) := Locate(loaded, meta).value;
      var r := UpdateBadge(loaded, meta).value;
      OnlyKeyChanged(loaded, r, "jobs")
      && OnlyKeyChanged(t.jobs, r.entries["jobs"], JobName)
      && OnlyKeyChanged(t.job, r.entries["jobs"].entries[JobName], "steps")
      && r.entries["jobs"].entries[JobName].entries["steps"].VList?
      && |r.entries["jobs"].entries[JobName].entries["steps"].items| == |t.steps|
      && (forall j :: 0 <= j < |t.steps| && j != t.index ==>
            r.entries["jobs"].entries[JobName].entries["steps"].items[j] == t.steps[j])
      && OnlyKeyChanged(t.step, r.entries["jobs"].entries[JobName].entries["steps"].items[t.index], "with")
      && OnlyKeyChanged(t.with, r.entries["jobs"].entries[JobName].entries["steps"].items[t.index].entries["with"], "message")
      && r.entries["jobs"].entries[JobName].entries["steps"].items[t.index].entries["with"].entries["message"] == version
  {
  }

  /** Running the badge update again with the same metadata changes nothing more. */
  lemma BadgeIdempotent(loaded: PyValue, meta: PyValue)
    requires UpdateBadge(loaded, meta).Ok?
    ensures UpdateBadge(UpdateBadge(loaded, meta).value, meta) == UpdateBadge(loaded, meta)
  {
    BadgeFound(loaded, meta);
    BadgeUpToDate(UpdateBadge(loaded, meta).value, meta);
  }

  /** The updated workflow still has the badge step in the same place, and it
      shows the version. */
  lemma BadgeFound(loaded: PyValue, meta: PyValue)
    requires UpdateBadge(loaded, meta).Ok?
    ensures var r := UpdateBadge(loaded, meta).value;
      Locate(r, meta).Ok?
      && Locate(r, meta).value.0.index == Locate(loaded, meta).value.0.index
      && var (t, version) := Locate(r, meta).value;
         t.with.VDict? && "message" in t.with.entries && t.with.entries["message"] == version
  {
    var (t, version) := Locate(loaded, meta).value;
    var with' := VDict(t.with.entries["message" := version]);
    var step' := Put(t.step, "with", with');
    var steps' := t.steps[t.index := step'];
    var jobs' := Put(t.jobs, JobName, Put(t.job, "steps", VList(steps')));
    assert UpdateBadge(loaded, meta).value == Put(loaded, "jobs", jobs');
    assert Named(step');
    LocateSame(t.steps, steps', t.index);
  }

  /** A workflow whose badge already shows the version is left exactly as it is. */
  lemma BadgeUpToDate(loaded: PyValue, meta: PyValue)
    requires Locate(loaded, meta).Ok?
    requires var (t, version) := Locate(loaded, meta).value;
      t.with.VDict? && "message" in t.with.entries && t.with.entries["message"] == version
    ensures UpdateBadge(loaded, meta) == Ok(loaded)
  {
    var (t, version) := Locate(loaded, meta).value;
    assert t.with.entries["message" := version] == t.with.entries;
    assert t.step.entries["with" := t.with] == t.step.entries;
    assert t.steps[t.index := t.step] == t.steps;
    assert t.job.entries["steps" := VList(t.steps)] == t.job.entries;
    assert t.jobs.entries[JobName := t.job] == t.jobs.entries;
    assert loaded.entries["jobs" := t.jobs] == loaded.entries;
  }

  /** Changing the badge step itself, and nothing before it, keeps the search result. */
  lemma LocateSame(steps: seq<PyValue>, steps': seq<PyValue>, i: nat)
    requires i < |steps| == |steps'|
    requires LocateFrom(steps, 0) == Ok(i) && Named(steps'[i])
    requires forall j :: 0 <= j < i ==> steps'[j] == steps[j]
    ensures LocateFrom(steps', 0) == Ok(i)
  {
    LocateUpTo(steps, steps', i, 0);
  }

  lemma {:induction false} LocateUpTo(steps: seq<PyValue>, steps': seq<PyValue>, i: nat, k: nat)
    requires k <= i < |steps| == |steps'|
    requires LocateFrom(steps, k) == Ok(i) && Named(steps'[i])
    requires forall j :: k <= j < i ==> steps'[j] == steps[j]
    ensures LocateFrom(steps', k) == Ok(i)
    decreases i - k
  {
    if k < i {
      assert OtherStep(steps[k]);
      LocateUpTo(steps, steps', i, k + 1);
    }
  }

  /** With the job found but no step of that name, the `ValueError` is raised
      before the metadata is read: a metadata file with no version is not
      what gets reported. */
  lemma BadgeNotFound(loaded: PyValue, meta: PyValue)
    requires loaded.VDict? && "jobs" in loaded.entries
    requires var jobs := loaded.entries["jobs"];
      jobs.VDict? && JobName in jobs.entries && jobs.entries[JobName].VDict?
      && "steps" in jobs.entries[JobName].entries
      && jobs.entries[JobName].entries["steps"].VList?
    requires var steps := loaded.entries["jobs"].entries[JobName].entries["steps"].items;
      forall j :: 0 <= j < |steps| ==> OtherStep(steps[j])
    ensures UpdateBadge(loaded, meta) == Err(ValueError(NotFoundMessage))
  {
  }

  /** configparser's `BasicInterpolation.before_set` refuses a value in which a
      '%' is left once the `%%` escapes and then the `%(name)s` references are
      removed; the message's `repr` and position are not rendered. */
  const InvalidInterpolation := "invalid interpolation syntax"

  /** `value.replace('%%', '')`: escaped percent signs removed, left to right. */
  function DropEscapes(s: string): (r: string)
    ensures |r| <= |s|
  {
    if |s| == 0 then ""
    else if |s| >= 2 && s[0] == '%' && s[1] == '%' then DropEscapes(s[2..])
    else [s[0]] + DropEscapes(s[1..])
  }

  /** `s[..n]` is a reference `%(name)s`: `name` is not empty and holds no ')'. */
  predicate RefAt(s: string, n: nat) {
    5 <= n <= |s| && s[0] == '%' && s[1] == '(' && s[n - 2] == ')' && s[n - 1] == 's'
    && forall i :: 2 <= i < n - 2 ==> s[i] != ')'
  }

  /** The length of the match of `%\(([^)]+)\)s` at the front of `s`, if any. */
  function RefLength(s: string): (r: Option<nat>)
    ensures r.Some? ==> RefAt(s, r.value)
    ensures r.None? ==> forall n: nat :: !RefAt(s, n)
  {
    if |s| < 2 || s[0] != '%' || s[1] != '(' then None
    else
      match FirstIndex(s[2..], (c: char) => c == ')')
      case None =>
        assert forall n: nat :: RefAt(s, n) ==> s[2..][n - 4] == ')';
        None
      case Some(k) =>
        if 0 < k && 3 + k < |s| && s[3 + k] == 's' then
          forall i | 2 <= i < 2 + k
            ensures s[i] != ')'
          {
            assert s[i] == s[2..][i - 2];
          }
          Some(4 + k)
        else
          assert forall n: nat :: RefAt(s, n) ==> n - 4 == k by {
            forall n: nat | RefAt(s, n) ensures n - 4 == k {
              assert s[2..][n - 4] == ')';
            }
          }
          None
  }

  /** `_KEYCRE.sub('', value)`: every reference removed, scanning left to right. */
  function DropRefs(s: string): (r: string)
    ensures |r| <= |s|
  {
    if |s| == 0 then ""
    else
      match RefLength(s)
      case Some(n) => DropRefs(s[n..])
      case None => [s[0]] + DropRefs(s[1..])
  }

  /** The value `before_set` refuses with a `ValueError`. */
  predicate BadInterpolation(s: string) {
    '%' in DropRefs(DropEscapes(s))
  }

  lemma {:induction false} NoPercentUnchanged(s: string)
    requires '%' !in s
    ensures DropEscapes(s) == s && DropRefs(s) == s
  {
    if |s| > 0 {
      assert '%' !in s[1..] by {
        assert forall c :: c in s[1..] ==> c in s;
      }
      NoPercentUnchanged(s[1..]);
      assert s == [s[0]] + s[1..];
    }
  }

  /** A version with no '%' at all is always stored. */
  lemma PlainVersionAccepted(s: string)
    requires '%' !in s
    ensures !BadInterpolation(s)
  {
    NoPercentUnchanged(s);
  }

  /** A lone '%' is refused. */
  lemma LonePercentRefused()
    ensures BadInterpolation("1.0%")
  {
  }

  /** A reference with an empty name is refused. */
  lemma EmptyNameRefused()
    ensures BadInterpolation("%()s")
  {
  }

  /** A reference without its closing `s` is refused. */
  lemma UnterminatedRefused()
    ensures BadInterpolation("%(v)")
  {
  }

  /** A doubled '%' is accepted. */
  lemma EscapeAccepted()
    ensures !BadInterpolation("1%%")
  {
  }

  /** A complete reference is accepted. */
  lemma ReferenceAccepted()
    ensures !BadInterpolation("%(v)s")
  {
  }

  /** `update_setup(meta)`: setup.cfg with `metadata.version` set. The version
      is looked up first; configparser only stores strings, and refuses one
      whose '%' signs are not valid interpolation syntax. */
  function UpdateSetup(cfg: VersionFile.SetupCfg, meta: PyValue): (r: Result<VersionFile.SetupCfg, Error>)
    ensures r.Ok? <==> Subscript(meta, "version").Ok? && "metadata" in cfg && meta.entries["version"].VStr?
                       && !BadInterpolation(meta.entries["version"].s)
    ensures Subscript(meta, "version").Err? ==> r == Err(Subscript(meta, "version").error)
    ensures Subscript(meta, "version").Ok? && "metadata" !in cfg ==> r == Err(KeyError("metadata"))
    ensures Subscript(meta, "version").Ok? && "metadata" in cfg && !meta.entries["version"].VStr? ==>
      r == Err(TypeError(TypeOf(meta.entries["version"])))
    ensures (Subscript(meta, "version").Ok? && "metadata" in cfg && meta.entries["version"].VStr?
             && BadInterpolation(meta.entries["version"].s)) ==> r == Err(ValueError(InvalidInterpolation))
    ensures r.Ok? ==> r.value.Keys == cfg.Keys
    ensures r.Ok? ==> forall sec :: sec in cfg && sec != "metadata" ==> r.value[sec] == cfg[sec]
    ensures r.Ok? ==> r.value["metadata"].Keys == cfg["metadata"].Keys + {"version"}
    ensures r.Ok? ==> forall o :: o in cfg["metadata"] && o != "version" ==> r.value["metadata"][o] == cfg["metadata"][o]
  {
    var version :- Subscript(meta, "version");
    if "metadata" !in cfg then Err(KeyError("metadata"))
    else if !version.VStr? then Err(TypeError(TypeOf(version)))
    else if BadInterpolation(version.s) then Err(ValueError(InvalidInterpolation))
    else Ok(cfg["metadata" := cfg["metadata"]["version" := version.s]])
  }

  /** The version `update_setup` stores is what update.py's `get_version` looks up
      in the parsed configuration. */
  lemma SetupRoundTrip(cfg: VersionFile.SetupCfg, meta: PyValue)
    requires UpdateSetup(cfg, meta).Ok?
    ensures VersionFile.GetVersion(UpdateSetup(cfg, meta).value) == Ok(meta.entries["version"].s)
  {
  }

  /** `update_init(meta)`: the new content and whether the success message is
      printed. With no match the line is written at the end and the function
      returns early, before the message. */
  datatype InitOutcome = InitOutcome(content: string, announced: bool)

  function UpdateInit(content: string, version: string): InitOutcome {
    var line := VersionFile.VersionLine(version);
    match VersionFile.Search(content)
    case None => InitOutcome(content + line, false)
    case Some(m) => InitOutcome(content[..m.start] + line + content[m.end..], true)
  }

  /** The same transformation as update.py's, announced exactly when a line matched. */
  lemma InitAsPackageScript(content: string, version: string)
    ensures UpdateInit(content, version).content == VersionFile.UpdateInit(content, version)
    ensures UpdateInit(content, version).announced <==> VersionFile.Search(content).Some?
  {
    VersionFile.UpdateCases(content, version);
  }

  /** The three files the updaters rewrite. */
  datatype Files = Files(workflow: PyValue, setup: VersionFile.SetupCfg, init: string)

  /** `main()` after loading the metadata: each updater writes its file before
      the next runs, so an error leaves the earlier files written. */
  function RunUpdaters(files: Files, meta: PyValue): (r: (Files, Option<Error>))
  {
    match UpdateBadge(files.workflow, meta)
    case Err(e) => (files, Some(e))
    case Ok(workflow) =>
      match UpdateSetup(files.setup, meta)
      case Err(e) => (files.(workflow := workflow), Some(e))
      case Ok(setup) =>
        (Files(workflow, setup, UpdateInit(files.init, meta.entries["version"].s).content), None)
  }

  /** A failing updater leaves its own and every later file untouched; on
      success every file carries the version. */
  lemma RunWritesInOrder(files: Files, meta: PyValue)
    ensures var (out, err) := RunUpdaters(files, meta);
      (UpdateBadge(files.workflow, meta).Err? ==> out == files && err == Some(UpdateBadge(files.workflow, meta).error))
      && (UpdateBadge(files.workflow, meta).Ok? && UpdateSetup(files.setup, meta).Err? ==>
            out == files.(workflow := UpdateBadge(files.workflow, meta).value)
            && err == Some(UpdateSetup(files.setup, meta).error))
      && (err.None? <==> UpdateBadge(files.workflow, meta).Ok? && UpdateSetup(files.setup, meta).Ok?)
      && (err.None? ==> VersionFile.GetVersion(out.setup) == Ok(meta.entries["version"].s))
      && (err.None? ==> out.init == VersionFile.UpdateInit(files.init, meta.entries["version"].s))
  {
    if UpdateBadge(files.workflow, meta).Ok? && UpdateSetup(files.setup, meta).Ok? {
      SetupRoundTrip(files.setup, meta);
      InitAsPackageScript(files.init, meta.entries["version"].s);
    }
  }
}
