/**
 * The controller object: its Target store, a map from key to a Target
 * object that is updated in place, and the messages it hands to the
 * notifier. Every method is proved against the functions of `Reconcile`
 * through `Model()`.
 */
module Controller {
  import opened Wrappers
  import opened Resources
  import opened Messages
  import opened Reconcile

  /** The per-resource tracking record. */
  class Target {
    var obj: Snapshot
    var lastTimeMessageSent: int
    var lastMessageHash: string

    constructor (obj: Snapshot)
      ensures View() == NewTarget(obj)
    {
      this.obj := obj;
      lastTimeMessageSent := 0;
      lastMessageHash := "";
    }

    function View(): TargetState
      reads this
    {
      TargetState(obj, lastTimeMessageSent, lastMessageHash)
    }
  }

  class Controller {
    const policy: Policy
    var targets: map<string, Target>
    /** Every message passed to the handler's `Notify`, in order. */
    var sent: seq<string>

    /** No two keys share a Target object. */
    ghost predicate Valid()
      reads this
    {
      forall k1, k2 :: k1 in targets && k2 in targets && k1 != k2 ==> targets[k1] != targets[k2]
    }

    ghost function Model(): State
      reads this, targets.Values
    {
      State(map k | k in targets :: targets[k].View(), sent)
    }

    constructor (policy: Policy)
      ensures Valid() && this.policy == policy
      ensures Model() == State(map[], [])
    {
      this.policy := policy;
      targets := map[];
      sent := [];
    }

    /** Render the Target's snapshot and, unless the duplicate check holds it back, send it. */
    method GenerateMessageAndSend(target: Target, checkDuplicate: bool, pods: Option<seq<Pod>>, now: int,
                                  ghost key: string)
      requires Valid() && key in targets && targets[key] == target
      modifies this, target
      ensures Valid() && targets == old(targets)
      ensures Model() == Reconcile.GenerateMessageAndSend(old(Model()), key, checkDuplicate, pods, now, policy)
    {
      ghost var before := Model();
      var message := RenderMessage(target.obj, pods);
      var same := match policy.rule
        case MessageToDigest => message == target.lastMessageHash
        case DigestToDigest => policy.hash(message) == target.lastMessageHash;
      if checkDuplicate && same && now - target.lastTimeMessageSent < SuppressionWindow {
        return;
      }
      // The handler's Notify; its error is discarded.
      sent := sent + [message];
      target.lastTimeMessageSent := now;
      target.lastMessageHash := policy.hash(message);
      forall k | k in targets && k != key
        ensures Model().targets[k] == before.targets[k]
      {
        assert targets[k] != target;
      }
      MapUpdated(Model().targets, before.targets, key, target.View());
    }

    /** Replace the tracked snapshot of `key` in place. */
    method Refresh(target: Target, s: Snapshot, ghost key: string)
      requires Valid() && key in targets && targets[key] == target
      modifies target
      ensures Valid()
      ensures Model() == old(Model()).(targets := old(Model()).targets[key := old(target.View()).(obj := s)])
    {
      ghost var before := Model();
      target.obj := s;
      forall k | k in targets && k != key
        ensures Model().targets[k] == before.targets[k]
      {
        assert targets[k] != target;
      }
      MapUpdated(Model().targets, before.targets, key, before.targets[key].(obj := s));
    }

    /** Start tracking `key` with a fresh Target. */
    method Track(key: string, s: Snapshot) returns (target: Target)
      requires Valid() && key !in targets
      modifies this
      ensures Valid() && fresh(target) && targets == old(targets)[key := target]
      ensures Model() == old(Model()).(targets := old(Model()).targets[key := NewTarget(s)])
    {
      target := new Target(s);
      targets := targets[key := target];
      assert targets.Values <= old(targets.Values) + {target};
    }

    /** Track an unhealthy resource, or refresh and re-notify a tracked one. */
    method ProcessResource(key: string, s: Snapshot, pods: Option<seq<Pod>>, now: int)
      requires Valid()
      modifies this, targets.Values
      ensures Valid()
      ensures fresh(targets.Values - old(targets.Values))
      ensures Model() == Reconcile.ProcessResource(old(Model()), key, s, pods, now, policy)
    {
      if key in targets {
        var target := targets[key];
        Refresh(target, s, key);
        GenerateMessageAndSend(target, true, pods, now, key);
      } else {
        if s.readyReplicas == s.replicas {
          return;
        }
        var target := Track(key, s);
        GenerateMessageAndSend(target, false, pods, now, key);
      }
    }

    /** One iteration of the consumer loop: derive the key, then dispatch on the object's kind. */
    method ProcessEvent(event: Event, pods: Option<seq<Pod>>, now: int)
      requires Valid()
      modifies this, targets.Values
      ensures Valid()
      ensures fresh(targets.Values - old(targets.Values))
      ensures Model() == Reconcile.ProcessEvent(old(Model()), Step(event, pods, now), policy)
    {
      var (key, err) := MetaNamespaceKey(event.obj);
      // A key error is only logged.
      match event.obj
      case Workload(s) =>
        ProcessResource(key, s, pods, now);
      case Unsupported(_) =>
    }

    /** The consumer loop over the events taken from the queue, in order. */
    method ProcessEvents(steps: seq<Step>)
      requires Valid()
      modifies this, targets.Values
      ensures Valid()
      ensures fresh(targets.Values - old(targets.Values))
      ensures Model() == Run(old(Model()), steps, policy)
    {
      var i := 0;
      while i < |steps|
        invariant 0 <= i <= |steps|
        invariant Valid()
        invariant fresh(targets.Values - old(targets.Values))
        invariant Model() == Run(old(Model()), steps[..i], policy)
      {
        ProcessEvent(steps[i].event, steps[i].pods, steps[i].now);
        RunSnoc(old(Model()), steps, policy, i);
        i := i + 1;
      }
      assert steps[..i] == steps;
    }
  }

  lemma MapUpdated<V>(m: map<string, V>, m0: map<string, V>, key: string, v: V)
    requires m.Keys == m0.Keys && key in m && m[key] == v
    requires forall k :: k in m && k != key ==> m[k] == m0[k]
    ensures m == m0[key := v]
  {
  }
}
