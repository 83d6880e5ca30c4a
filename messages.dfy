/**
 * The notification text for one workload: a header chosen by replica
 * health, then one block per listed pod and, inside it, one block per
 * container. `Render` is the specification; `RenderMessage` builds the same
 * text step by step, as the controller's string builder does.
 */
module Messages {
  import opened Wrappers
  import opened Resources
  import opened Decimal

  /** `%v` of a replica count. */
  function Fmt(n: int32): string {
    FormatInt(n as int)
  }

  const HealthyPhrase := "is in a healthy state now ("
  const RollingPhrase := "is rolling out an update, "

  /** What every message of a healthy workload starts with. */
  function HealthyPrefix(s: Snapshot): string {
    "*" + Key(s) + " " + HealthyPhrase
  }

  /** The first line: `*<key> <status>*`, the status chosen by replica health. */
  function Header(s: Snapshot): string {
    var str :=
      if IsHealthy(s) then HealthyPhrase + Fmt(s.readyReplicas) + "/" + Fmt(s.replicas) + ")"
      else RollingPhrase + Fmt(s.updatedReplicas) + " replicas updated out of "
           + Fmt(s.replicas) + ", " + Fmt(s.readyReplicas) + " ready";
    "*" + Key(s) + " " + str + "*"
  }

  /** The coarse state label: Waiting before Running before Terminated; empty when no state is set. */
  function StateLabel(st: ContainerState): (name: string)
    ensures name == "Waiting" <==> st.waiting
    ensures name == "Running" <==> !st.waiting && st.running
    ensures name == "Terminated" <==> !st.waiting && !st.running && st.terminated
    ensures name == "" <==> !st.waiting && !st.running && !st.terminated
  {
    if st.waiting then "Waiting"
    else if st.running then "Running"
    else if st.terminated then "Terminated"
    else ""
  }

  function ContainerLine(c: ContainerStatus): string {
    "\n\t\tContainer: *" + c.name + "*"
  }

  /** The ` Status:` segment, present only when a state label was chosen. */
  function StatusSegment(stateName: string): string {
    if |stateName| > 0 then " Status: *" + stateName + "*" else ""
  }

  function ImageLine(c: ContainerStatus): string {
    "\n\t\t\tImage Id: " + c.imageID
  }

  /** One container: its name line, its state label if any, and its image id line. */
  function ContainerBlock(c: ContainerStatus): string {
    ContainerLine(c) + StatusSegment(StateLabel(c.state)) + ImageLine(c)
  }

  /** The concatenation of `f(x)` for the elements `x` of `xs`, in order. */
  function ConcatMap<T>(xs: seq<T>, f: T -> string): string {
    if xs == [] then "" else ConcatMap(xs[..|xs| - 1], f) + f(xs[|xs| - 1])
  }

  function PodLine(p: Pod): string {
    "\n\n\tPod: *" + p.name + "* Phase: *" + p.phase + "*"
  }

  function PodBlock(p: Pod): string {
    PodLine(p) + ConcatMap(p.containerStatuses, ContainerBlock)
  }

  /**
   * The whole message for a snapshot and the outcome of listing its pods
   * (None when listing failed): the header, then the pods' blocks.
   */
  function Render(s: Snapshot, pods: Option<seq<Pod>>): string {
    Header(s) + match pods
      case None => ""
      case Some(ps) => ConcatMap(ps, PodBlock)
  }

  lemma AppendAssoc(a: string, b: string, c: string)
    ensures (a + b) + c == a + (b + c)
  {
  }

  lemma ConcatMapSnoc<T>(xs: seq<T>, x: T, f: T -> string)
    ensures ConcatMap(xs + [x], f) == ConcatMap(xs, f) + f(x)
  {
    assert (xs + [x])[..|xs|] == xs;
  }

  /** Appending a container block is appending its pieces one after the other. */
  lemma ContainerBlockPieces(b: string, c: ContainerStatus)
    ensures |StateLabel(c.state)| > 0 ==>
      b + ContainerBlock(c) == b + ContainerLine(c) + StatusSegment(StateLabel(c.state)) + ImageLine(c)
    ensures |StateLabel(c.state)| == 0 ==>
      b + ContainerBlock(c) == b + ContainerLine(c) + ImageLine(c)
  {
    var cl, ss, il := ContainerLine(c), StatusSegment(StateLabel(c.state)), ImageLine(c);
    AppendAssoc(b, cl, ss);
    AppendAssoc(b, cl + ss, il);
    if |StateLabel(c.state)| == 0 {
      assert cl + ss == cl;
    }
  }

  lemma ConcatMapPrefix<T>(xs: seq<T>, n: nat, f: T -> string)
    requires n < |xs|
    ensures ConcatMap(xs[..n + 1], f) == ConcatMap(xs[..n], f) + f(xs[n])
  {
    assert xs[..n + 1][..n] == xs[..n];
  }

  /** The message builder of the controller: header, then nested loops over pods and containers. */
  method RenderMessage(s: Snapshot, pods: Option<seq<Pod>>) returns (message: string)
    ensures message == Render(s, pods)
  {
    var builder := Header(s);
    if pods.Some? {
      var items := pods.value;
      var i := 0;
      while i < |items|
        invariant 0 <= i <= |items|
        invariant builder == Header(s) + ConcatMap(items[..i], PodBlock)
      {
        var v := items[i];
        ghost var podStart := builder;
        builder := builder + PodLine(v);
        var cs := v.containerStatuses;
        var j := 0;
        while j < |cs|
          invariant 0 <= j <= |cs|
          invariant builder == podStart + PodLine(v) + ConcatMap(cs[..j], ContainerBlock)
        {
          var container := cs[j];
          ContainerBlockPieces(builder, container);
          builder := builder + ContainerLine(container);
          var stateStr := StateLabel(container.state);
          if |stateStr| > 0 {
            builder := builder + StatusSegment(stateStr);
          }
          builder := builder + ImageLine(container);
          ConcatMapPrefix(cs, j, ContainerBlock);
          AppendAssoc(podStart + PodLine(v), ConcatMap(cs[..j], ContainerBlock), ContainerBlock(container));
          j := j + 1;
        }
        assert cs[..j] == cs;
        AppendAssoc(podStart, PodLine(v), ConcatMap(cs, ContainerBlock));
        ConcatMapPrefix(items, i, PodBlock);
        AppendAssoc(Header(s), ConcatMap(items[..i], PodBlock), PodBlock(v));
        i := i + 1;
      }
      assert items[..i] == items;
    }
    message := builder;
  }

  /** Blocks follow one another in the order of the elements. */
  lemma {:induction false} ConcatMapAppend<T>(a: seq<T>, b: seq<T>, f: T -> string)
    ensures ConcatMap(a + b, f) == ConcatMap(a, f) + ConcatMap(b, f)
    decreases |b|
  {
    if b == [] {
      assert a + b == a;
    } else {
      var b' := b[..|b| - 1];
      var x := b[|b| - 1];
      assert a + b == (a + b') + [x];
      assert b == b' + [x];
      ConcatMapSnoc(a + b', x, f);
      ConcatMapSnoc(b', x, f);
      ConcatMapAppend(a, b', f);
    }
  }

  /** Listing more pods appends exactly their blocks, in order, after the earlier ones. */
  lemma RenderMorePods(s: Snapshot, ps: seq<Pod>, more: seq<Pod>)
    ensures Render(s, Some(ps + more)) == Render(s, Some(ps)) + ConcatMap(more, PodBlock)
  {
    ConcatMapAppend(ps, more, PodBlock);
  }

  /** A failed listing leaves the header alone; any listing starts with the header. */
  lemma RenderStartsWithHeader(s: Snapshot, pods: Option<seq<Pod>>)
    ensures Header(s) <= Render(s, pods)
    ensures pods.None? ==> Render(s, pods) == Header(s)
    ensures |Render(s, pods)| > 0 && Render(s, pods)[0] == '*'
  {
  }

  lemma PrefixOfAppend(a: string, b: string, c: string)
    requires a <= b
    ensures a <= b + c
  {
  }

  lemma PrefixUnderAppend(x: string, a: string, b: string)
    requires a <= b
    ensures x + a <= x + b
  {
  }

  /** The message opens with the healthy phrase exactly when the workload's replicas are all ready. */
  lemma RenderReportsHealth(s: Snapshot, pods: Option<seq<Pod>>)
    ensures HealthyPrefix(s) <= Render(s, pods) <==> IsHealthy(s)
  {
    var x := "*" + Key(s) + " ";
    var str :=
      if IsHealthy(s) then HealthyPhrase + Fmt(s.readyReplicas) + "/" + Fmt(s.replicas) + ")"
      else RollingPhrase + Fmt(s.updatedReplicas) + " replicas updated out of "
           + Fmt(s.replicas) + ", " + Fmt(s.readyReplicas) + " ready";
    var body := match pods case None => "" case Some(ps) => ConcatMap(ps, PodBlock);
    assert Render(s, pods) == x + str + "*" + body;
    if IsHealthy(s) {
      PrefixOfAppend(HealthyPhrase, HealthyPhrase, Fmt(s.readyReplicas));
      PrefixOfAppend(HealthyPhrase, HealthyPhrase + Fmt(s.readyReplicas), "/");
      PrefixOfAppend(HealthyPhrase, HealthyPhrase + Fmt(s.readyReplicas) + "/", Fmt(s.replicas));
      PrefixOfAppend(HealthyPhrase, HealthyPhrase + Fmt(s.readyReplicas) + "/" + Fmt(s.replicas), ")");
      PrefixUnderAppend(x, HealthyPhrase, str);
      PrefixOfAppend(x + HealthyPhrase, x + str, "*");
      PrefixOfAppend(x + HealthyPhrase, x + str + "*", body);
    } else {
      var n := |x| + 3;
      assert (x + HealthyPhrase)[n] == HealthyPhrase[3] == 'i';
      assert str[3] == RollingPhrase[3] == 'r';
      assert Render(s, pods)[n] == str[3];
    }
  }

  /** A container block omits the ` Status:` segment exactly when no state is set. */
  lemma ContainerBlockWithoutState(c: ContainerStatus)
    ensures ContainerBlock(c) == ContainerLine(c) + ImageLine(c)
            <==> !c.state.waiting && !c.state.running && !c.state.terminated
  {
    if StatusSegment(StateLabel(c.state)) != "" {
      assert |ContainerBlock(c)| > |ContainerLine(c) + ImageLine(c)|;
    }
  }

  /** The image id line always closes a container block. */
  lemma ContainerBlockEndsWithImage(c: ContainerStatus)
    ensures ContainerLine(c) <= ContainerBlock(c)
    ensures ImageLine(c) == ContainerBlock(c)[|ContainerBlock(c)| - |ImageLine(c)|..]
  {
  }
}
