/** Which tools the current mode exposes to the model, and which calls it lets through. */
module ToolPolicy {
  import opened Wrappers
  import opened Text
  import X = ExactEdit

  datatype Mode = DefaultMode | PlanMode | OtherMode(name: string)

  datatype Safety = Safety(planSafe: bool, readsWorkspace: bool, mutatesWorkspace: bool, executesShell: bool,
                           usesNetwork: bool, usesHostState: bool, readsHostState: bool, mutatesHostState: bool)

  const NO_SAFETY := Safety(false, false, false, false, false, false, false, false)

  datatype Access = ReadAccess | WriteAccess | CreateAccess | OtherAccess(name: string)

  /**
   * Declared permissions: the access modes of each file permission, and how many shell and network permissions there
   * are.
   */
  datatype Permissions = Permissions(files: seq<seq<Access>>, shell: nat, network: nat)

  datatype Entry = Entry(name: string, category: string, packageName: string, safety: Safety, permissions: Permissions)

  /** Unicode case mapping and case-insensitive comparison. */
  datatype Letters = Letters(lower: string -> string, sameFold: (string, string) -> bool)

  datatype Reason =
    | DefaultAllows | PlanningOnlyInPlanMode | UnsupportedMode | BroadFiles | MutatesFiles | Shell | Network | HostState
    | PlanSafeTool | MutatingName | Undeclared | NoCapabilities | UnknownTool

  datatype Decision = Decision(allowed: bool, reason: Reason)

  // ----- The decision -----

  function Dashed(s: string): string {
    seq(|s|, i requires 0 <= i < |s| => if s[i] == '-' || s[i] == ' ' then '_' else s[i])
  }

  function NormalizeTerm(value: string, letters: Letters): string {
    Dashed(letters.lower(TrimSpace(value)))
  }

  const PLANNING_TOOLS := ["read_plan", "write_plan", "read_todos", "write_todos", "read_command_evidence",
                           "submit_plan_implementation"]
  const DEFAULT_PLANNING_TOOLS := ["read_plan", "read_todos", "write_todos", "read_command_evidence",
                                   "submit_plan_implementation"]
  const BLOCKED_FRAGMENTS := ["write", "create", "overwrite", "edit", "patch", "delete", "remove", "shell", "command",
                              "exec", "run_command", "background", "process", "deploy"]

  predicate IsPlanningTool(e: Entry, letters: Letters) {
    || NormalizeTerm(e.name, letters) in PLANNING_TOOLS
    || (e.packageName == "falken-core" && letters.sameFold(e.category, "planning"))
  }

  predicate AllowedInDefault(name: string, letters: Letters) {
    NormalizeTerm(name, letters) in DEFAULT_PLANNING_TOOLS
  }

  predicate BlockedName(name: string) {
    exists k :: 0 <= k < |BLOCKED_FRAGMENTS| && X.Index(name, BLOCKED_FRAGMENTS[k]).Some?
  }

  /** The first file permission that is broad, or writes or creates. */
  function FileBlock(files: seq<seq<Access>>): Option<Reason> {
    if files == [] then None
    else if files[0] == [] then Some(BroadFiles)
    else if WriteAccess in files[0] || CreateAccess in files[0] then Some(MutatesFiles)
    else FileBlock(files[1..])
  }

  function PlanModeDecision(e: Entry, letters: Letters): Decision {
    if e.safety.mutatesWorkspace then Decision(false, MutatesFiles)
    else if FileBlock(e.permissions.files).Some? then Decision(false, FileBlock(e.permissions.files).value)
    else if e.safety.executesShell || e.permissions.shell != 0 then Decision(false, Shell)
    else if e.safety.usesNetwork || e.permissions.network != 0 then Decision(false, Network)
    else if e.safety.mutatesHostState && !e.safety.planSafe then Decision(false, HostState)
    else if e.safety.planSafe then Decision(true, PlanSafeTool)
    else if BlockedName(NormalizeTerm(e.name, letters)) then Decision(false, MutatingName)
    else if e.safety == NO_SAFETY && e.permissions == Permissions([], 0, 0) then Decision(false, Undeclared)
    else Decision(true, NoCapabilities)
  }

  function ToolDecision(mode: Mode, e: Entry, letters: Letters): Decision {
    match mode
    case DefaultMode =>
      if IsPlanningTool(e, letters) && !AllowedInDefault(e.name, letters) then Decision(false, PlanningOnlyInPlanMode)
      else Decision(true, DefaultAllows)
    case PlanMode => PlanModeDecision(e, letters)
    case OtherMode(_) => Decision(false, UnsupportedMode)
  }

  // ----- What the plan mode lets through -----

  ghost predicate DeclaresFileMutation(e: Entry) {
    var files := e.permissions.files;
    || e.safety.mutatesWorkspace
    || (exists i :: 0 <= i < |files| && (files[i] == [] || WriteAccess in files[i] || CreateAccess in files[i]))
  }

  /** Declares no workspace mutation, shell or network capability, and mutates host state only if it is plan-safe. */
  ghost predicate PlanHarmless(e: Entry) {
    && !DeclaresFileMutation(e)
    && !e.safety.executesShell && e.permissions.shell == 0
    && !e.safety.usesNetwork && e.permissions.network == 0
    && (e.safety.mutatesHostState ==> e.safety.planSafe)
  }

  lemma {:induction false} FileBlockMeaning(files: seq<seq<Access>>)
    ensures FileBlock(files).Some? <==>
            exists i :: 0 <= i < |files| && (files[i] == [] || WriteAccess in files[i] || CreateAccess in files[i])
  {
    if files != [] {
      FileBlockMeaning(files[1..]);
      assert forall i :: 0 < i < |files| ==> files[i] == files[1..][i - 1];
      if FileBlock(files[1..]).Some? {
        var i :| 0 <= i < |files[1..]|
                 && (files[1..][i] == [] || WriteAccess in files[1..][i] || CreateAccess in files[1..][i]);
        assert files[i + 1] == files[1..][i];
      }
    }
  }

  /**
   * Plan mode allows a tool exactly when it is harmless and either declared plan-safe, or declares something and has
   * a name that does not sound mutating.
   */
  lemma {:induction false} PlanModeAllowsIff(e: Entry, letters: Letters)
    ensures
      ToolDecision(PlanMode, e, letters).allowed <==>
      && PlanHarmless(e)
      && (e.safety.planSafe || (!BlockedName(NormalizeTerm(e.name, letters))
                                && !(e.safety == NO_SAFETY && e.permissions == Permissions([], 0, 0))))
  {
    hide NormalizeTerm, BlockedName;
    FileBlockMeaning(e.permissions.files);
  }

  // ----- Exposure and lookup -----

  /** The tools of `available` that the mode allows, in order; an unsupported mode is an error. */
  function Filtered(mode: Mode, available: seq<Entry>, letters: Letters): seq<Entry> {
    if available == [] then []
    else
      var last := available[|available| - 1];
      Filtered(mode, available[..|available| - 1], letters)
      + if ToolDecision(mode, last, letters).allowed then [last] else []
  }

  method FilterTools(mode: Mode, available: seq<Entry>, letters: Letters) returns (r: Option<seq<Entry>>)
    ensures r == if mode.OtherMode? then None else Some(Filtered(mode, available, letters))
  {
    hide IsPlanningTool, AllowedInDefault, PlanModeDecision;
    var allowed: seq<Entry> := [];
    if mode == DefaultMode {
      for i := 0 to |available|
        invariant allowed == Filtered(mode, available[..i], letters)
      {
        assert available[..i + 1][..i] == available[..i];
        if IsPlanningTool(available[i], letters) && !AllowedInDefault(available[i].name, letters) {
          continue;
        }
        allowed := allowed + [available[i]];
      }
      assert available[..|available|] == available;
      return Some(allowed);
    }
    if mode != PlanMode {
      return None;
    }
    for i := 0 to |available|
      invariant allowed == Filtered(mode, available[..i], letters)
    {
      assert available[..i + 1][..i] == available[..i];
      if PlanModeDecision(available[i], letters).allowed {
        allowed := allowed + [available[i]];
      }
    }
    assert available[..|available|] == available;
    r := Some(allowed);
  }

  /** The first entry of that name. */
  function Find(name: string, entries: seq<Entry>): (r: Option<Entry>)
    ensures r.Some? ==> r.value in entries && r.value.name == name
    ensures r.None? ==> forall e :: e in entries ==> e.name != name
  {
    if entries == [] then None
    else if entries[0].name == name then Some(entries[0])
    else Find(name, entries[1..])
  }

  method FindTool(name: string, entries: seq<Entry>) returns (r: Option<Entry>)
    ensures r == Find(name, entries)
  {
    for i := 0 to |entries|
      invariant Find(name, entries) == Find(name, entries[i..])
    {
      assert entries[i..][0] == entries[i] && entries[i..][1..] == entries[i + 1..];
      if entries[i].name == name {
        return Some(entries[i]);
      }
    }
    r := None;
  }

  /** The check made when a call arrives: the entry of that name is active and the mode allows it. */
  predicate CallAllowed(mode: Mode, name: string, available: seq<Entry>, letters: Letters) {
    Find(name, available).Some? && ToolDecision(mode, Find(name, available).value, letters).allowed
  }

  predicate Exposed(mode: Mode, name: string, available: seq<Entry>, letters: Letters) {
    exists e :: e in Filtered(mode, available, letters) && e.name == name
  }

  lemma {:induction false} FilteredMembers(mode: Mode, available: seq<Entry>, letters: Letters)
    ensures forall e :: e in Filtered(mode, available, letters) <==>
              e in available && ToolDecision(mode, e, letters).allowed
  {
    hide ToolDecision;
    if available != [] {
      FilteredMembers(mode, available[..|available| - 1], letters);
      assert available == available[..|available| - 1] + [available[|available| - 1]];
    }
  }

  ghost predicate UniqueNames(available: seq<Entry>) {
    forall i, j :: 0 <= i < j < |available| ==> available[i].name != available[j].name
  }

  /** Every tool the mode allows is the first of its name, or has a first namesake that the mode allows too. */
  ghost predicate FirstNamesakesAllowed(mode: Mode, available: seq<Entry>, letters: Letters) {
    forall e :: e in available && ToolDecision(mode, e, letters).allowed ==>
      CallAllowed(mode, e.name, available, letters)
  }

  lemma {:induction false} CallableIsExposed(mode: Mode, name: string, available: seq<Entry>, letters: Letters)
    requires CallAllowed(mode, name, available, letters)
    ensures Exposed(mode, name, available, letters)
  {
    hide ToolDecision;
    FilteredMembers(mode, available, letters);
    assert Find(name, available).value in Filtered(mode, available, letters);
  }

  /**
   * The tools exposed are exactly those whose calls are let through, if and only if allowed tools have allowed first
   * namesakes.
   */
  lemma {:induction false} ExposedIsCallableIff(mode: Mode, available: seq<Entry>, letters: Letters)
    ensures (forall name :: Exposed(mode, name, available, letters) <==> CallAllowed(mode, name, available, letters))
            <==> FirstNamesakesAllowed(mode, available, letters)
  {
    hide ToolDecision, CallAllowed;
    FilteredMembers(mode, available, letters);
    forall name | CallAllowed(mode, name, available, letters) ensures Exposed(mode, name, available, letters) {
      CallableIsExposed(mode, name, available, letters);
    }
    forall e | e in available && ToolDecision(mode, e, letters).allowed
      ensures Exposed(mode, e.name, available, letters)
    {
      assert e in Filtered(mode, available, letters);
    }
  }

  /** Distinct names are enough. */
  lemma {:induction false} DistinctNamesSuffice(mode: Mode, available: seq<Entry>, letters: Letters)
    requires UniqueNames(available)
    ensures forall name :: Exposed(mode, name, available, letters) <==> CallAllowed(mode, name, available, letters)
  {
    hide ToolDecision;
    forall e | e in available && ToolDecision(mode, e, letters).allowed
      ensures CallAllowed(mode, e.name, available, letters)
    {
      var i :| 0 <= i < |available| && available[i] == e;
      assert Find(e.name, available).Some?;
      var j :| 0 <= j < |available| && available[j] == Find(e.name, available).value;
      assert i == j;
    }
    ExposedIsCallableIff(mode, available, letters);
  }
}
