/**
 * The call-chain obfuscator: an action runs at the bottom of a chain of 3 to 8
 * hops through a fixed pool of twenty interchangeable "stage" functions, each
 * hop going through `dispatch`, which picks the next stage at random. The chain
 * is modelled as the trace of frames it pushes; the crash reporter's
 * process-wide `userInfo` dictionary, which `run(userInfo:)` tags around the
 * chain, is a class field.
 */
module CallChain {
  import opened Optional

  /** The twenty stage functions, grouped as in the source by theme. */
  datatype Stage =
    // UI flow
    | HandleUserInteraction | ProcessViewUpdate | LayoutSubviewHierarchy | RenderVisibleContent
    // Data/network
    | FetchRemoteResource | ProcessNetworkResponse | DeserializePayload | ValidateResponseIntegrity
    // Business logic
    | ApplyBusinessRules | ComputeDerivedState | ResolveConflicts | TransformDataModel
    // Storage
    | PersistToLocalStore | SynchronizeWithBackend | MigrateSchemaVersion | IndexSearchableContent
    // Auth/session
    | RefreshSessionToken | ValidateUserPermissions | DecryptSecurePayload | AuditAccessLog

  /** `allFunctions`: the pool `dispatch` draws from. */
  const AllFunctions: seq<Stage> := [
    HandleUserInteraction, ProcessViewUpdate, LayoutSubviewHierarchy, RenderVisibleContent,
    FetchRemoteResource, ProcessNetworkResponse, DeserializePayload, ValidateResponseIntegrity,
    ApplyBusinessRules, ComputeDerivedState, ResolveConflicts, TransformDataModel,
    PersistToLocalStore, SynchronizeWithBackend, MigrateSchemaVersion, IndexSearchableContent,
    RefreshSessionToken, ValidateUserPermissions, DecryptSecurePayload, AuditAccessLog
  ]

  /**
   * A position that `allFunctions.randomElement()` can return. The type is
   * inhabited because the pool is not empty, which is why the force-unwrap
   * in `dispatch` cannot fail.
   */
  type PoolIndex = i: int | 0 <= i < |AllFunctions| witness 0

  /** The random source of `dispatch`: `picks(k)` is the result of the k-th `randomElement()`. */
  type StagePicks = nat -> PoolIndex

  /** Every stage can be drawn: each one sits at some position of the pool. */
  function PoolIndexOf(s: Stage): (i: PoolIndex)
    ensures AllFunctions[i] == s
  {
    match s
    case HandleUserInteraction => 0
    case ProcessViewUpdate => 1
    case LayoutSubviewHierarchy => 2
    case RenderVisibleContent => 3
    case FetchRemoteResource => 4
    case ProcessNetworkResponse => 5
    case DeserializePayload => 6
    case ValidateResponseIntegrity => 7
    case ApplyBusinessRules => 8
    case ComputeDerivedState => 9
    case ResolveConflicts => 10
    case TransformDataModel => 11
    case PersistToLocalStore => 12
    case SynchronizeWithBackend => 13
    case MigrateSchemaVersion => 14
    case IndexSearchableContent => 15
    case RefreshSessionToken => 16
    case ValidateUserPermissions => 17
    case DecryptSecurePayload => 18
    case AuditAccessLog => 19
  }

  /** What a chain does, in order: enter a stage frame, enter `dispatch`, or call the action. */
  datatype Event = StageFrame(stage: Stage) | DispatchFrame | ActionCall

  /** How many times `e` occurs in `t`. */
  function Occurrences(t: seq<Event>, e: Event): nat {
    multiset(t)[e]
  }

  /** How many entries of `t` are stage frames: every entry that is neither a dispatch nor the action. */
  function StageFrames(t: seq<Event>): int {
    |t| - Occurrences(t, DispatchFrame) - Occurrences(t, ActionCall)
  }

  /**
   * One stage function called with `remaining` hops left (the body all twenty
   * share): at zero it calls the action; otherwise it calls `dispatch` with one
   * hop fewer. `k` counts the random draws made so far.
   */
  function StageCall(stage: Stage, remaining: nat, picks: StagePicks, k: nat): (t: seq<Event>)
    ensures |t| == 2 * remaining + 2
    ensures t[0] == StageFrame(stage) && t[|t| - 1] == ActionCall
    decreases remaining, 0
  {
    if remaining == 0 then [StageFrame(stage), ActionCall]
    else [StageFrame(stage)] + Dispatch(remaining - 1, picks, k)
  }

  /** `dispatch`: draw the next stage from the pool and call it with the same hop count. */
  function Dispatch(remaining: nat, picks: StagePicks, k: nat): (t: seq<Event>)
    ensures |t| == 2 * remaining + 3
    ensures t[0] == DispatchFrame && t[1] == StageFrame(AllFunctions[picks(k)]) && t[|t| - 1] == ActionCall
    decreases remaining, 1
  {
    [DispatchFrame] + StageCall(AllFunctions[picks(k)], remaining, picks, k + 1)
  }

  /**
   * Entry `i` of a chain, written out: a frame for `stage` first, then for each
   * hop a `dispatch` frame followed by the frame of the stage that hop drew,
   * and the action last.
   */
  function ChainEvent(stage: Stage, remaining: nat, picks: StagePicks, k: nat, i: nat): Event
    requires i < 2 * remaining + 2
  {
    if i == 0 then StageFrame(stage)
    else if i == 2 * remaining + 1 then ActionCall
    else if i % 2 == 1 then DispatchFrame
    else StageFrame(AllFunctions[picks(k + i / 2 - 1)])
  }

  /** The whole chain, written out. */
  function ChainTrace(stage: Stage, remaining: nat, picks: StagePicks, k: nat): (t: seq<Event>)
    ensures |t| == 2 * remaining + 2
  {
    seq(2 * remaining + 2, i requires 0 <= i < 2 * remaining + 2 => ChainEvent(stage, remaining, picks, k, i))
  }

  lemma {:induction false} StageCallAt(stage: Stage, remaining: nat, picks: StagePicks, k: nat, i: nat)
    requires i < 2 * remaining + 2
    ensures StageCall(stage, remaining, picks, k)[i] == ChainEvent(stage, remaining, picks, k, i)
    decreases remaining
  {
    if remaining > 0 && i >= 2 {
      var next := AllFunctions[picks(k)];
      var rest := StageCall(next, remaining - 1, picks, k + 1);
      HopIndex(stage, rest, i);
      StageCallAt(next, remaining - 1, picks, k + 1, i - 2);
      ChainEventShift(stage, remaining, picks, k, i);
    }
  }

  /** Entry `i` of a chain is entry `i - 2` of the chain that its first hop starts. */
  lemma ChainEventShift(stage: Stage, remaining: nat, picks: StagePicks, k: nat, i: nat)
    requires 0 < remaining && 2 <= i < 2 * remaining + 2
    ensures ChainEvent(AllFunctions[picks(k)], remaining - 1, picks, k + 1, i - 2) == ChainEvent(stage, remaining, picks, k, i)
  {
    assert (i - 2) % 2 == i % 2;
    assert i % 2 == 0 && i > 2 ==> k + 1 + (i - 2) / 2 - 1 == k + i / 2 - 1;
  }

  /** Past the two frames of a hop, the chain continues with the rest. */
  lemma HopIndex(stage: Stage, rest: seq<Event>, i: nat)
    requires 2 <= i < |rest| + 2
    ensures ([StageFrame(stage)] + ([DispatchFrame] + rest))[i] == rest[i - 2]
  {
  }

  /** The recursive chain is exactly the written-out one. */
  lemma StageCallIsChainTrace(stage: Stage, remaining: nat, picks: StagePicks, k: nat)
    ensures StageCall(stage, remaining, picks, k) == ChainTrace(stage, remaining, picks, k)
  {
    var t, c := StageCall(stage, remaining, picks, k), ChainTrace(stage, remaining, picks, k);
    forall i | 0 <= i < |t|
      ensures t[i] == c[i]
    {
      StageCallAt(stage, remaining, picks, k, i);
    }
  }

  /**
   * A chain started with `remaining` hops makes exactly `remaining` dispatches,
   * pushes `remaining + 1` stage frames and calls the action exactly once.
   */
  lemma {:induction false} StageCallCounts(stage: Stage, remaining: nat, picks: StagePicks, k: nat)
    ensures Occurrences(StageCall(stage, remaining, picks, k), ActionCall) == 1
    ensures Occurrences(StageCall(stage, remaining, picks, k), DispatchFrame) == remaining
    ensures StageFrames(StageCall(stage, remaining, picks, k)) == remaining + 1
    decreases remaining
  {
    if remaining > 0 {
      var next := AllFunctions[picks(k)];
      var rest := StageCall(next, remaining - 1, picks, k + 1);
      HopOccurrences(stage, rest);
      StageCallCounts(next, remaining - 1, picks, k + 1);
    }
  }

  /** One hop adds one stage frame and one dispatch frame in front of the rest of the chain. */
  lemma HopOccurrences(stage: Stage, rest: seq<Event>)
    ensures Occurrences([StageFrame(stage)] + ([DispatchFrame] + rest), ActionCall) == Occurrences(rest, ActionCall)
    ensures Occurrences([StageFrame(stage)] + ([DispatchFrame] + rest), DispatchFrame) == Occurrences(rest, DispatchFrame) + 1
    ensures |[StageFrame(stage)] + ([DispatchFrame] + rest)| == |rest| + 2
  {
    assert multiset([StageFrame(stage)] + ([DispatchFrame] + rest)) == multiset{StageFrame(stage), DispatchFrame} + multiset(rest);
  }

  /** The action is called once, as the last thing the chain does: no frame follows it. */
  lemma ActionIsLast(stage: Stage, remaining: nat, picks: StagePicks, k: nat)
    ensures forall i :: 0 <= i < 2 * remaining + 1 ==> !StageCall(stage, remaining, picks, k)[i].ActionCall?
  {
    StageCallIsChainTrace(stage, remaining, picks, k);
  }

  /**
   * `run(action)`: draw a hop count in 3...8 (a nondeterministic choice here)
   * and start the chain at `handleUserInteraction`.
   */
  method Run(picks: StagePicks) returns (depth: nat, trace: seq<Event>)
    ensures 3 <= depth <= 8
    ensures trace == ChainTrace(HandleUserInteraction, depth, picks, 0)
    ensures Occurrences(trace, ActionCall) == 1
    ensures Occurrences(trace, DispatchFrame) == depth
    ensures StageFrames(trace) == depth + 1
  {
    depth :| 3 <= depth <= 8;
    trace := StageCall(HandleUserInteraction, depth, picks, 0);
    StageCallCounts(HandleUserInteraction, depth, picks, 0);
    StageCallIsChainTrace(HandleUserInteraction, depth, picks, 0);
  }

  /** The `userInfo` key that tags a crash with the chain it came from. */
  const CallChainKey := "call_chain"

  /** `info["call_chain"] = key`: the tag is set and every other entry is kept. */
  function WithTag(info: map<string, string>, key: string): (r: map<string, string>)
    ensures CallChainKey in r && r[CallChainKey] == key
    ensures forall k :: k != CallChainKey ==> (k in r <==> k in info)
    ensures forall k :: k != CallChainKey && k in info ==> r[k] == info[k]
  {
    info[CallChainKey := key]
  }

  /** `info.removeValue(forKey: "call_chain")`: the tag is gone and every other entry is kept. */
  function WithoutTag(info: map<string, string>): (r: map<string, string>)
    ensures CallChainKey !in r
    ensures forall k :: k != CallChainKey ==> (k in r <==> k in info)
    ensures forall k :: k != CallChainKey && k in info ==> r[k] == info[k]
  {
    info - {CallChainKey}
  }

  /** Tagging and then untagging leaves the dictionary as it was, minus any earlier tag. */
  lemma TagThenUntag(info: map<string, string>, key: string)
    ensures WithoutTag(WithTag(info, key)) == WithoutTag(info)
  {
    var a, b := WithoutTag(WithTag(info, key)), WithoutTag(info);
    assert a.Keys == b.Keys;
  }

  /**
   * The crash reporter's process-wide `userInfo` (`KSCrash.shared.userInfo`),
   * which may be `nil`. Its values are the strings this code writes.
   */
  class CrashReporter {
    var userInfo: Option<map<string, string>>

    constructor (initial: Option<map<string, string>>)
      ensures userInfo == initial
    {
      userInfo := initial;
    }

    /** `setUserInfo(key)`: read `userInfo ?? [:]`, set the tag, write it back. */
    method SetUserInfo(key: string)
      modifies this
      ensures userInfo == Some(WithTag(old(userInfo).GetOr(map[]), key))
    {
      var info := userInfo.GetOr(map[]);
      info := info[CallChainKey := key];
      userInfo := Some(info);
    }

    /** `clearUserInfo(key)`: remove the tag, whatever `key` is, and write the rest back. */
    method ClearUserInfo(key: string)
      modifies this
      ensures userInfo == Some(WithoutTag(old(userInfo).GetOr(map[])))
    {
      var info := userInfo.GetOr(map[]);
      info := info - {CallChainKey};
      userInfo := Some(info);
    }

    /**
     * `run(userInfo: key, action)`: tag, then run the chain whose action is
     * `action(); clearUserInfo(key)`. `actionReturns` says whether the action
     * comes back (the crash triggers never do). `tagSeen` is the tag the crash
     * reporter holds while the action runs. The stage frames do nothing but
     * call on, so running the action after the chain's trace is computed is
     * running it at the bottom of the chain.
     */
    method RunWithUserInfo(key: string, picks: StagePicks, actionReturns: bool)
      returns (depth: nat, trace: seq<Event>, tagSeen: Option<string>)
      modifies this
      ensures 3 <= depth <= 8 && trace == ChainTrace(HandleUserInteraction, depth, picks, 0)
      ensures tagSeen == Some(key)
      ensures actionReturns ==> userInfo == Some(WithoutTag(old(userInfo).GetOr(map[])))
      ensures !actionReturns ==> userInfo == Some(WithTag(old(userInfo).GetOr(map[]), key))
    {
      ghost var before := userInfo.GetOr(map[]);
      SetUserInfo(key);
      depth, trace := Run(picks);
      tagSeen := if CallChainKey in userInfo.value then Some(userInfo.value[CallChainKey]) else None;
      if actionReturns {
        ClearUserInfo(key);
        TagThenUntag(before, key);
      }
    }
  }
}
