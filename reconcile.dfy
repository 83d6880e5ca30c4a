/**
 * The controller's per-resource state machine as a function of its state:
 * the Target store (a map from key to Target) and the log of messages
 * handed to the notifier. `ProcessEvent` is one dequeued event; `Run` a
 * sequence of them. The lemmas state what the controller promises.
 */
module Reconcile {
  import opened Wrappers
  import opened Resources
  import opened Messages

  /** Seconds during which a message matching the stored digest is held back. */
  const SuppressionWindow := 5

  /** A Target: the last snapshot, and when and what was last sent. */
  datatype TargetState = TargetState(obj: Snapshot, lastTimeMessageSent: int, lastMessageHash: string)

  datatype State = State(targets: map<string, TargetState>, sent: seq<string>)

  /**
   * How the dedup check compares a new message with the stored digest:
   * the raw message against the digest, or the message's digest against it.
   */
  datatype DedupRule = MessageToDigest | DigestToDigest

  /** The digest function (SHA-256 in hex) and the comparison in force. */
  datatype Policy = Policy(hash: string -> string, rule: DedupRule)

  /** One dequeued event with what the environment answers while it is handled. */
  datatype Step = Step(event: Event, pods: Option<seq<Pod>>, now: int)

  function NewTarget(s: Snapshot): TargetState {
    TargetState(s, 0, "")
  }

  predicate Suppressed(p: Policy, checkDuplicate: bool, message: string, t: TargetState, now: int) {
    && checkDuplicate
    && (match p.rule
        case MessageToDigest => message == t.lastMessageHash
        case DigestToDigest => p.hash(message) == t.lastMessageHash)
    && now - t.lastTimeMessageSent < SuppressionWindow
  }

  /** Render the Target's snapshot; unless suppressed, send it and record time and digest. */
  function GenerateMessageAndSend(
    st: State, key: string, checkDuplicate: bool, pods: Option<seq<Pod>>, now: int, p: Policy): State
    requires key in st.targets
  {
    var t := st.targets[key];
    var message := Render(t.obj, pods);
    if Suppressed(p, checkDuplicate, message, t, now) then st
    else State(st.targets[key := t.(lastTimeMessageSent := now, lastMessageHash := p.hash(message))],
               st.sent + [message])
  }

  function ProcessResource(
    st: State, key: string, s: Snapshot, pods: Option<seq<Pod>>, now: int, p: Policy): State
  {
    if key in st.targets then
      GenerateMessageAndSend(st.(targets := st.targets[key := st.targets[key].(obj := s)]), key, true, pods, now, p)
    else if IsHealthy(s) then
      st
    else
      GenerateMessageAndSend(st.(targets := st.targets[key := NewTarget(s)]), key, false, pods, now, p)
  }

  /** One iteration of the consumer loop; the event type plays no part. */
  function ProcessEvent(st: State, step: Step, p: Policy): State {
    var (key, _) := MetaNamespaceKey(step.event.obj);
    match step.event.obj
    case Workload(s) => ProcessResource(st, key, s, step.pods, step.now, p)
    case Unsupported(_) => st
  }

  function Run(st: State, steps: seq<Step>, p: Policy): State
    decreases |steps|
  {
    if steps == [] then st else ProcessEvent(Run(st, steps[..|steps| - 1], p), steps[|steps| - 1], p)
  }

  predicate EventFor(step: Step, k: string) {
    step.event.obj.Workload? && Key(step.event.obj.snapshot) == k
  }

  predicate UnhealthyEventFor(step: Step, k: string) {
    EventFor(step, k) && !IsHealthy(step.event.obj.snapshot)
  }

  /** Whether the step renders a message: a workload that is tracked already or is unhealthy. */
  predicate Renders(st: State, step: Step) {
    step.event.obj.Workload?
    && (Key(step.event.obj.snapshot) in st.targets || !IsHealthy(step.event.obj.snapshot))
  }

  /** Every Target is stored under its own snapshot's key. */
  predicate WellKeyed(st: State) {
    forall k :: k in st.targets ==> Key(st.targets[k].obj) == k
  }

  // ----- one event ---------------------------------------------------------

  /** An untracked, healthy workload is ignored. */
  lemma UntrackedHealthyIgnored(st: State, step: Step, p: Policy)
    requires step.event.obj.Workload?
    requires Key(step.event.obj.snapshot) !in st.targets && IsHealthy(step.event.obj.snapshot)
    ensures ProcessEvent(st, step, p) == st
  {
  }

  /** An untracked, unhealthy workload gets a Target holding its snapshot and exactly one message. */
  lemma UntrackedUnhealthyNotified(st: State, step: Step, p: Policy)
    requires step.event.obj.Workload?
    requires Key(step.event.obj.snapshot) !in st.targets && !IsHealthy(step.event.obj.snapshot)
    ensures var s := step.event.obj.snapshot;
            var m := Render(s, step.pods);
            && ProcessEvent(st, step, p).targets == st.targets[Key(s) := TargetState(s, step.now, p.hash(m))]
            && ProcessEvent(st, step, p).sent == st.sent + [m]
  {
  }

  /**
   * A tracked workload has its snapshot replaced and is re-rendered with the
   * duplicate check on; every other Target is left as it was.
   */
  lemma TrackedRenotified(st: State, step: Step, p: Policy)
    requires step.event.obj.Workload? && Key(step.event.obj.snapshot) in st.targets
    ensures var s := step.event.obj.snapshot;
            var k := Key(s);
            var m := Render(s, step.pods);
            var t := st.targets[k].(obj := s);
            var r := ProcessEvent(st, step, p);
            && r.targets.Keys == st.targets.Keys
            && (forall k' :: k' in st.targets && k' != k ==> r.targets[k'] == st.targets[k'])
            && (Suppressed(p, true, m, t, step.now) ==> r.targets[k] == t && r.sent == st.sent)
            && (!Suppressed(p, true, m, t, step.now) ==>
                  r.targets[k] == TargetState(s, step.now, p.hash(m)) && r.sent == st.sent + [m])
  {
  }

  /**
   * The key leaves out the kind: a StatefulSet event for the key of a tracked
   * Deployment takes over that Target instead of getting one of its own.
   */
  lemma KindsShareTarget(st: State, step: Step, p: Policy)
    requires step.event.obj.Workload? && step.event.obj.snapshot.kind == StatefulSet
    requires var k := Key(step.event.obj.snapshot); k in st.targets && st.targets[k].obj.kind == Deployment
    ensures var k := Key(step.event.obj.snapshot);
            var r := ProcessEvent(st, step, p);
            && r.targets.Keys == st.targets.Keys
            && r.targets[k].obj == step.event.obj.snapshot
            && r.targets[k].obj.kind == StatefulSet
  {
  }

  /** Objects other than Deployments and StatefulSets change nothing. */
  lemma UnsupportedIgnored(st: State, step: Step, p: Policy)
    requires step.event.obj.Unsupported?
    ensures ProcessEvent(st, step, p) == st
  {
  }

  /** Add, update and delete are handled alike. */
  lemma EventTypeIgnored(st: State, obj: Object, t1: EventType, t2: EventType,
                         pods: Option<seq<Pod>>, now: int, p: Policy)
    ensures ProcessEvent(st, Step(Event(obj, t1), pods, now), p)
         == ProcessEvent(st, Step(Event(obj, t2), pods, now), p)
  {
  }

  /** A step sends at most one message, appended to the log; it never removes a Target. */
  lemma ProcessEventMonotone(st: State, step: Step, p: Policy)
    ensures var r := ProcessEvent(st, step, p);
            && st.targets.Keys <= r.targets.Keys
            && (r.sent == st.sent || (Renders(st, step) && r.sent == st.sent + [Render(step.event.obj.snapshot, step.pods)]))
            && (!Renders(st, step) ==> r == st)
  {
  }

  /** An event for another resource leaves a Target, and its absence, alone. */
  lemma ProcessEventOtherKey(st: State, step: Step, p: Policy, k: string)
    requires !EventFor(step, k)
    ensures k in ProcessEvent(st, step, p).targets <==> k in st.targets
    ensures k in st.targets ==> ProcessEvent(st, step, p).targets[k] == st.targets[k]
  {
  }

  /** After one step a key is tracked exactly when it was before or the step showed it unhealthy. */
  lemma ProcessEventTracked(st: State, step: Step, p: Policy, k: string)
    ensures k in ProcessEvent(st, step, p).targets <==> k in st.targets || UnhealthyEventFor(step, k)
  {
  }

  lemma ProcessEventWellKeyed(st: State, step: Step, p: Policy)
    requires WellKeyed(st)
    ensures WellKeyed(ProcessEvent(st, step, p))
  {
  }

  // ----- sequences of events -----------------------------------------------

  lemma RunSnoc(st: State, steps: seq<Step>, p: Policy, i: nat)
    requires i < |steps|
    ensures Run(st, steps[..i + 1], p) == ProcessEvent(Run(st, steps[..i], p), steps[i], p)
  {
    assert steps[..i + 1][..i] == steps[..i];
  }

  /** No key is ever removed, and the message log only grows, by at most one message per event. */
  lemma {:induction false} RunMonotone(st: State, steps: seq<Step>, p: Policy)
    ensures st.targets.Keys <= Run(st, steps, p).targets.Keys
    ensures st.sent <= Run(st, steps, p).sent
    ensures |Run(st, steps, p).sent| <= |st.sent| + |steps|
    decreases |steps|
  {
    if steps != [] {
      var prev := Run(st, steps[..|steps| - 1], p);
      RunMonotone(st, steps[..|steps| - 1], p);
      ProcessEventMonotone(prev, steps[|steps| - 1], p);
    }
  }

  /** Targets stay filed under their own keys. */
  lemma {:induction false} RunWellKeyed(st: State, steps: seq<Step>, p: Policy)
    requires WellKeyed(st)
    ensures WellKeyed(Run(st, steps, p))
    decreases |steps|
  {
    if steps != [] {
      RunWellKeyed(st, steps[..|steps| - 1], p);
      ProcessEventWellKeyed(Run(st, steps[..|steps| - 1], p), steps[|steps| - 1], p);
    }
  }

  /** A key is tracked after a run exactly when it was before, or some event showed it unhealthy. */
  lemma {:induction false} RunTrackedIff(st: State, steps: seq<Step>, p: Policy, k: string)
    ensures k in Run(st, steps, p).targets
            <==> k in st.targets || exists i :: 0 <= i < |steps| && UnhealthyEventFor(steps[i], k)
    decreases |steps|
  {
    if steps != [] {
      var n := |steps| - 1;
      var prefix := steps[..n];
      RunTrackedIff(st, prefix, p, k);
      ProcessEventTracked(Run(st, prefix, p), steps[n], p, k);
      assert forall i :: 0 <= i < n ==> prefix[i] == steps[i];
      assert (exists i :: 0 <= i < |steps| && UnhealthyEventFor(steps[i], k))
         <==> (exists i :: 0 <= i < n && UnhealthyEventFor(prefix[i], k)) || UnhealthyEventFor(steps[n], k);
    }
  }

  /** Events for other resources leave a Target, and its absence, alone. */
  lemma {:induction false} RunOtherKeysUnchanged(st: State, steps: seq<Step>, p: Policy, k: string)
    requires forall i :: 0 <= i < |steps| ==> !EventFor(steps[i], k)
    ensures k in Run(st, steps, p).targets <==> k in st.targets
    ensures k in st.targets ==> Run(st, steps, p).targets[k] == st.targets[k]
    decreases |steps|
  {
    if steps != [] {
      var prefix := steps[..|steps| - 1];
      assert forall i :: 0 <= i < |prefix| ==> prefix[i] == steps[i];
      RunOtherKeysUnchanged(st, prefix, p, k);
      ProcessEventOtherKey(Run(st, prefix, p), steps[|steps| - 1], p, k);
    }
  }

  /**
   * Per-resource ordering: a tracked Target holds the snapshot of the last
   * event for its key, whatever events for other keys came in between.
   */
  lemma {:induction false} RunLastSnapshotWins(st: State, steps: seq<Step>, p: Policy, k: string, j: nat)
    requires j < |steps| && EventFor(steps[j], k)
    requires forall i :: j < i < |steps| ==> !EventFor(steps[i], k)
    requires k in Run(st, steps, p).targets
    ensures Run(st, steps, p).targets[k].obj == steps[j].event.obj.snapshot
    decreases |steps|
  {
    var n := |steps| - 1;
    var prefix := steps[..n];
    var prev := Run(st, prefix, p);
    if j < n {
      assert forall i :: j < i < |prefix| ==> prefix[i] == steps[i];
      ProcessEventOtherKey(prev, steps[n], p, k);
      RunLastSnapshotWins(st, prefix, p, k, j);
    }
  }

  // ----- duplicate suppression --------------------------------------------

  /** What `fmt.Sprintf("%x", ...)` of a SHA-256 sum looks like. */
  predicate IsHexDigest(h: string) {
    |h| == 64 && forall i :: 0 <= i < |h| ==> h[i] in "0123456789abcdef"
  }

  ghost predicate HexHash(hash: string -> string) {
    forall m :: IsHexDigest(hash(m))
  }

  /** Every stored digest is still unset or a hex digest. */
  predicate DigestsWellFormed(st: State) {
    forall k :: k in st.targets ==>
      st.targets[k].lastMessageHash == "" || IsHexDigest(st.targets[k].lastMessageHash)
  }

  /** A message starts with '*', which neither the unset digest nor a hex digest does. */
  lemma MessageIsNeverADigest(s: Snapshot, pods: Option<seq<Pod>>, h: string)
    requires h == "" || IsHexDigest(h)
    ensures Render(s, pods) != h
  {
    RenderStartsWithHeader(s, pods);
    if h != "" {
      assert h[0] in "0123456789abcdef";
    }
  }

  lemma ProcessEventDigests(st: State, step: Step, p: Policy)
    requires HexHash(p.hash) && DigestsWellFormed(st)
    ensures DigestsWellFormed(ProcessEvent(st, step, p))
  {
  }

  lemma {:induction false} RunDigests(st: State, steps: seq<Step>, p: Policy)
    requires HexHash(p.hash) && DigestsWellFormed(st)
    ensures DigestsWellFormed(Run(st, steps, p))
    decreases |steps|
  {
    if steps != [] {
      RunDigests(st, steps[..|steps| - 1], p);
      ProcessEventDigests(Run(st, steps[..|steps| - 1], p), steps[|steps| - 1], p);
    }
  }

  /**
   * With the raw message compared against the stored digest, nothing is
   * ever suppressed: every step that renders a message sends it.
   */
  lemma MessageToDigestNeverSuppresses(st: State, step: Step, p: Policy)
    requires p.rule == MessageToDigest && DigestsWellFormed(st)
    ensures ProcessEvent(st, step, p).sent
            == st.sent + (if Renders(st, step) then [Render(step.event.obj.snapshot, step.pods)] else [])
  {
    if Renders(st, step) {
      var s := step.event.obj.snapshot;
      if Key(s) in st.targets {
        MessageIsNeverADigest(s, step.pods, st.targets[Key(s)].lastMessageHash);
      }
    }
  }

  /** The same event handled twice, a second apart, is sent twice when the raw message is compared. */
  lemma RepeatedEventResentAsWritten(st: State, step: Step, p: Policy)
    requires p.rule == MessageToDigest && HexHash(p.hash) && DigestsWellFormed(st) && Renders(st, step)
    ensures var m := Render(step.event.obj.snapshot, step.pods);
            ProcessEvent(ProcessEvent(st, step, p), step.(now := step.now + 1), p).sent == st.sent + [m, m]
  {
    var mid := ProcessEvent(st, step, p);
    MessageToDigestNeverSuppresses(st, step, p);
    ProcessEventDigests(st, step, p);
    ProcessEventMonotone(st, step, p);
    MessageToDigestNeverSuppresses(mid, step.(now := step.now + 1), p);
  }

  /**
   * With digests compared, an event that repeats a sent message within the
   * window changes nothing: the repeat is suppressed.
   */
  lemma RepeatedEventSuppressedByDigest(st: State, step: Step, again: Step, p: Policy)
    requires p.rule == DigestToDigest
    requires again.event.obj == step.event.obj && again.pods == step.pods
    requires step.now <= again.now < step.now + SuppressionWindow
    requires ProcessEvent(st, step, p).sent != st.sent
    ensures ProcessEvent(ProcessEvent(st, step, p), again, p) == ProcessEvent(st, step, p)
  {
    var mid := ProcessEvent(st, step, p);
    var s := step.event.obj.snapshot;
    assert mid.targets[Key(s)].obj == s;
    assert mid.targets[Key(s) := mid.targets[Key(s)].(obj := s)] == mid.targets;
  }

  /** Once the window has passed, the repeat is sent again, whichever comparison is used. */
  lemma RepeatAfterWindowResent(st: State, step: Step, again: Step, p: Policy)
    requires again.event.obj == step.event.obj && again.pods == step.pods
    requires again.now >= step.now + SuppressionWindow
    requires ProcessEvent(st, step, p).sent != st.sent
    ensures var mid := ProcessEvent(st, step, p);
            ProcessEvent(mid, again, p).sent == mid.sent + [Render(step.event.obj.snapshot, step.pods)]
  {
  }
}
