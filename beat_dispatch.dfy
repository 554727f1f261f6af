/** The beat handler: fireBeat, with its two delivery strategies. Unsynced, every
    visualizer whose state is `on` and whose confidence band holds the beat gets its own
    transition, scheduled with a per-device lead time, and its anchor is stamped.
    Synced, one transition is broadcast from the shared colour configuration and only
    the shared anchor is stamped. Delivery is recorded in a log of sent messages. */
module BeatDispatch {
  import opened Wrappers
  import opened Timing
  import opened ColorShift
  import opened ColorPipeline

  /** A connected visualizer: its colour configuration and its own delay (ms). */
  class Visualizer {
    var colorInfo: ColorInfo
    var delay: int

    constructor (colorInfo: ColorInfo, delay: int)
      ensures this.colorInfo == colorInfo && this.delay == delay
    {
      this.colorInfo := colorInfo;
      this.delay := delay;
    }
  }

  /** One delivery: `sendData` to a single visualizer (transition, palette, lead time),
      or `broadcastData` of the shared configuration's transition to every receiver. */
  datatype Message =
    | Send(to: Visualizer, colors: seq<Color>, palette: seq<Color>, delay: int)
    | Broadcast(sharedData: ColorInfo, colors: seq<Color>)

  /** The transport, reduced to the messages handed to it, in order. */
  class Server {
    var log: seq<Message>

    constructor ()
      ensures log == []
    {
      log := [];
    }

    method SendData(visualizer: Visualizer, colors: seq<Color>, palette: seq<Color>, delay: int)
      modifies this
      ensures log == old(log) + [Send(visualizer, colors, palette, delay)]
    {
      log := log + [Send(visualizer, colors, palette, delay)];
    }

    method BroadcastData(sharedData: ColorInfo, colors: seq<Color>)
      modifies this
      ensures log == old(log) + [Broadcast(sharedData, colors)]
    {
      log := log + [Broadcast(sharedData, colors)];
    }
  }

  /** The value of a visualizer at one instant. */
  datatype Target = Target(colorInfo: ColorInfo, delay: int)

  ghost function Snapshot(visualizers: seq<Visualizer>): (targets: seq<Target>)
    reads visualizers
    ensures |targets| == |visualizers|
    ensures forall i :: 0 <= i < |visualizers| ==>
      targets[i] == Target(visualizers[i].colorInfo, visualizers[i].delay)
  {
    seq(|visualizers|, i requires 0 <= i < |visualizers| reads visualizers =>
      Target(visualizers[i].colorInfo, visualizers[i].delay))
  }

  /** A visualizer takes a beat when it is on and the confidence lies in its band:
      a visualizer that is off takes none, and one that is on takes exactly the beats
      in its band. */
  predicate Accepts(colorInfo: ColorInfo, confidence: real): (accepted: bool)
    ensures colorInfo.state != On ==> !accepted
    ensures colorInfo.state == On ==> (accepted <==> InBand(colorInfo, confidence))
  {
    colorInfo.state == On && InBand(colorInfo, confidence)
  }

  /** The configuration after a beat: re-anchored at `now` if it took the beat. */
  function Stamped(colorInfo: ColorInfo, confidence: real, now: int): (after: ColorInfo)
    ensures after.lastBeatTimestamp == if Accepts(colorInfo, confidence) then now else colorInfo.lastBeatTimestamp
    ensures after.(lastBeatTimestamp := colorInfo.lastBeatTimestamp) == colorInfo
  {
    if Accepts(colorInfo, confidence) then colorInfo.(lastBeatTimestamp := now) else colorInfo
  }

  /** Every target that takes the beat can be computed for. */
  predicate TargetsReady(targets: seq<Target>, confidence: real, now: int, section: Option<Section>) {
    forall i :: 0 <= i < |targets| && Accepts(targets[i].colorInfo, confidence) ==>
      Processable(targets[i].colorInfo, now, section)
  }

  /** The send one accepting visualizer gets: lead time `-globalDelay - delay`, the
      transition over the beat's duration plus that lead time, its own palette, and
      its own sensitivities as the shift weights. */
  function TargetSend(math: ColorMath, visualizer: Visualizer, target: Target, beatInfo: BeatParamsInfo,
                      section: Option<Section>, globalDelay: int, now: int): (message: Message)
    requires Processable(target.colorInfo, now, section)
    ensures message.Send? && message.to == visualizer
    ensures message.delay == -globalDelay - target.delay
    ensures message.palette == target.colorInfo.palette
    ensures message.colors
         == ProcessNextColor(math, target.colorInfo, now, beatInfo.activeBeatDur + message.delay, section,
                             beatInfo.colorShiftParams,
                             ShiftParams(target.colorInfo.loudnessSensibility, target.colorInfo.tempoSensibility))
  {
    var vizDelay := -globalDelay - target.delay;
    var shiftWeights := ShiftParams(target.colorInfo.loudnessSensibility, target.colorInfo.tempoSensibility);
    Send(visualizer,
         ProcessNextColor(math, target.colorInfo, now, beatInfo.activeBeatDur + vizDelay, section,
                          beatInfo.colorShiftParams, shiftWeights),
         target.colorInfo.palette, vizDelay)
  }

  /** The messages of the unsynced strategy for the first `handled` list entries,
      visualizer by visualizer in list order: each entry adds its own send after the
      earlier ones' if it takes the beat, and nothing otherwise. */
  function UnsyncedPlan(math: ColorMath, visualizers: seq<Visualizer>, targets: seq<Target>, handled: nat,
                        beatInfo: BeatParamsInfo, section: Option<Section>, globalDelay: int,
                        now: int): (plan: seq<Message>)
    requires |visualizers| == |targets| && handled <= |targets|
    requires TargetsReady(targets, beatInfo.activeBeatConf, now, section)
    ensures |plan| <= handled
  {
    if handled == 0 then []
    else
      var n := handled - 1;
      UnsyncedPlan(math, visualizers, targets, n, beatInfo, section, globalDelay, now)
      + if Accepts(targets[n].colorInfo, beatInfo.activeBeatConf)
        then [TargetSend(math, visualizers[n], targets[n], beatInfo, section, globalDelay, now)]
        else []
  }

  /** The message of the synced strategy: none when the confidence falls outside the
      shared band, otherwise one broadcast of a transition over the beat's duration. */
  function BroadcastPlan(math: ColorMath, sharedData: ColorInfo, beatInfo: BeatParamsInfo,
                         section: Option<Section>, now: int): (plan: seq<Message>)
    requires InBand(sharedData, beatInfo.activeBeatConf) ==> Processable(sharedData, now, section)
    ensures |plan| == if InBand(sharedData, beatInfo.activeBeatConf) then 1 else 0
    ensures forall m :: m in plan ==> m.Broadcast? && m.sharedData == sharedData
  {
    if beatInfo.activeBeatConf < sharedData.minBeatConf || beatInfo.activeBeatConf > sharedData.maxBeatConf then []
    else
      var shiftWeights := ShiftParams(sharedData.loudnessSensibility, sharedData.tempoSensibility);
      [Broadcast(sharedData, ProcessNextColor(math, sharedData, now, beatInfo.activeBeatDur, section,
                                              beatInfo.colorShiftParams, shiftWeights))]
  }

  /** How many messages of a log are sends to one visualizer. */
  function SendsTo(log: seq<Message>, visualizer: Visualizer): nat {
    if log == [] then 0
    else SendsTo(log[..|log| - 1], visualizer)
         + if log[|log| - 1].Send? && log[|log| - 1].to == visualizer then 1 else 0
  }

  lemma SendsToAppend(log1: seq<Message>, log2: seq<Message>, visualizer: Visualizer)
    ensures SendsTo(log1 + log2, visualizer) == SendsTo(log1, visualizer) + SendsTo(log2, visualizer)
    decreases |log2|
  {
    if log2 == [] {
      assert log1 + log2 == log1;
    } else {
      var n := |log2| - 1;
      assert (log1 + log2)[..|log1 + log2| - 1] == log1 + log2[..n];
      assert (log1 + log2)[|log1 + log2| - 1] == log2[n];
      SendsToAppend(log1, log2[..n], visualizer);
    }
  }

  /** The unsynced strategy only sends, and only to the visualizers it has handled. */
  lemma {:induction false} UnsyncedPlanOnlySends(math: ColorMath, visualizers: seq<Visualizer>, targets: seq<Target>,
                                                 handled: nat, beatInfo: BeatParamsInfo, section: Option<Section>,
                                                 globalDelay: int, now: int)
    requires |visualizers| == |targets| && handled <= |targets|
    requires TargetsReady(targets, beatInfo.activeBeatConf, now, section)
    ensures forall m :: m in UnsyncedPlan(math, visualizers, targets, handled, beatInfo, section, globalDelay, now) ==>
      m.Send? && m.to in visualizers[..handled]
  {
    if handled > 0 {
      var n := handled - 1;
      UnsyncedPlanOnlySends(math, visualizers, targets, n, beatInfo, section, globalDelay, now);
      forall m | m in UnsyncedPlan(math, visualizers, targets, n, beatInfo, section, globalDelay, now)
        ensures m.to in visualizers[..handled]
      {
        var j :| 0 <= j < n && visualizers[..n][j] == m.to;
        assert visualizers[..handled][j] == m.to;
      }
      assert visualizers[..handled][n] == visualizers[n];
    }
  }

  /** In unsynced mode each handled visualizer gets exactly one send if it is on and
      the beat's confidence is within its band (bounds included), and none otherwise. */
  lemma {:induction false} UnsyncedPlanSendsOnceIffAccepted(math: ColorMath, visualizers: seq<Visualizer>,
                                                            targets: seq<Target>, handled: nat,
                                                            beatInfo: BeatParamsInfo, section: Option<Section>,
                                                            globalDelay: int, now: int)
    requires |visualizers| == |targets| && handled <= |targets|
    requires TargetsReady(targets, beatInfo.activeBeatConf, now, section)
    requires forall i, j :: 0 <= i < j < |visualizers| ==> visualizers[i] != visualizers[j]
    ensures forall i :: 0 <= i < handled ==>
      SendsTo(UnsyncedPlan(math, visualizers, targets, handled, beatInfo, section, globalDelay, now), visualizers[i])
      == if Accepts(targets[i].colorInfo, beatInfo.activeBeatConf) then 1 else 0
  {
    if handled > 0 {
      var n := handled - 1;
      UnsyncedPlanSendsOnceIffAccepted(math, visualizers, targets, n, beatInfo, section, globalDelay, now);
      UnsyncedPlanOnlySends(math, visualizers, targets, n, beatInfo, section, globalDelay, now);
      var prefix := UnsyncedPlan(math, visualizers, targets, n, beatInfo, section, globalDelay, now);
      var last := if Accepts(targets[n].colorInfo, beatInfo.activeBeatConf)
                  then [TargetSend(math, visualizers[n], targets[n], beatInfo, section, globalDelay, now)]
                  else [];
      forall i | 0 <= i < handled
        ensures SendsTo(prefix + last, visualizers[i])
             == if Accepts(targets[i].colorInfo, beatInfo.activeBeatConf) then 1 else 0
      {
        SendsToAppend(prefix, last, visualizers[i]);
        if last != [] {
          assert last[..0] == [];
        }
        if i == n && SendsTo(prefix, visualizers[i]) != 0 {
          SendsNonZeroMeansSent(prefix, visualizers[i]);
          assert false;
        }
      }
    }
  }

  /** The send an accepting handled visualizer gets carries the lead time
      `-globalDelay - delay`, its palette, and a transition over the beat's duration
      plus that lead time, weighted by its own sensitivities. */
  lemma {:induction false} UnsyncedPlanSendContents(math: ColorMath, visualizers: seq<Visualizer>,
                                                    targets: seq<Target>, handled: nat, beatInfo: BeatParamsInfo,
                                                    section: Option<Section>, globalDelay: int, now: int, i: nat)
    requires |visualizers| == |targets| && i < handled <= |targets|
    requires TargetsReady(targets, beatInfo.activeBeatConf, now, section)
    requires Accepts(targets[i].colorInfo, beatInfo.activeBeatConf)
    ensures var vizDelay := -globalDelay - targets[i].delay;
      Send(visualizers[i],
           ProcessNextColor(math, targets[i].colorInfo, now, beatInfo.activeBeatDur + vizDelay, section,
                            beatInfo.colorShiftParams,
                            ShiftParams(targets[i].colorInfo.loudnessSensibility, targets[i].colorInfo.tempoSensibility)),
           targets[i].colorInfo.palette, vizDelay)
      in UnsyncedPlan(math, visualizers, targets, handled, beatInfo, section, globalDelay, now)
  {
    if i < handled - 1 {
      UnsyncedPlanSendContents(math, visualizers, targets, handled - 1, beatInfo, section, globalDelay, now, i);
    }
  }

  lemma SendsNonZeroMeansSent(log: seq<Message>, visualizer: Visualizer)
    requires SendsTo(log, visualizer) != 0
    ensures exists m :: m in log && m.Send? && m.to == visualizer
    decreases |log|
  {
    var n := |log| - 1;
    if !(log[n].Send? && log[n].to == visualizer) {
      SendsNonZeroMeansSent(log[..n], visualizer);
      var m :| m in log[..n] && m.Send? && m.to == visualizer;
      assert m in log;
    }
  }

  /** In synced mode there is exactly one broadcast when the confidence is within the
      shared band (bounds included), carrying a transition over the beat's duration
      with no lead time, and none otherwise. The shared configuration's on/off state is
      not consulted. */
  lemma BroadcastPlanShape(math: ColorMath, sharedData: ColorInfo, beatInfo: BeatParamsInfo,
                           section: Option<Section>, now: int, state: VisualizerState)
    requires InBand(sharedData, beatInfo.activeBeatConf) ==> Processable(sharedData, now, section)
    ensures InBand(sharedData, beatInfo.activeBeatConf) ==>
      BroadcastPlan(math, sharedData, beatInfo, section, now)
      == [Broadcast(sharedData,
                    ProcessNextColor(math, sharedData, now, beatInfo.activeBeatDur, section, beatInfo.colorShiftParams,
                                     ShiftParams(sharedData.loudnessSensibility, sharedData.tempoSensibility)))]
    ensures !InBand(sharedData, beatInfo.activeBeatConf) ==> BroadcastPlan(math, sharedData, beatInfo, section, now) == []
    ensures |BroadcastPlan(math, sharedData.(state := state), beatInfo, section, now)|
         == |BroadcastPlan(math, sharedData, beatInfo, section, now)|
  {
  }

  /** A configuration that took a beat at `now` starts its next beat, within one tick,
      from the first palette entry. */
  lemma AcceptedBeatReanchors(colorInfo: ColorInfo, confidence: real, now: int, later: int,
                              section: Option<Section>)
    requires Accepts(colorInfo, confidence) && Processable(colorInfo, now, section)
    requires now <= later < now + colorInfo.colorTickRate
    ensures Processable(Stamped(colorInfo, confidence, now), later, section)
    ensures StartIndex(Stamped(colorInfo, confidence, now), later) == 0
  {
    var after := Stamped(colorInfo, confidence, now);
    PaletteIndexFirstTick(later, now, after.colorTickRate, |after.palette|);
  }

  /** The playback state the beat handler reads and updates. */
  class State {
    var isSynced: bool
    var globalDelay: int
    var visualizers: seq<Visualizer>
    var syncSharedData: ColorInfo
    var trackInfo: TrackInfo

    constructor (isSynced: bool, globalDelay: int, visualizers: seq<Visualizer>,
                 syncSharedData: ColorInfo, trackInfo: TrackInfo)
      ensures this.isSynced == isSynced && this.globalDelay == globalDelay
      ensures this.visualizers == visualizers && this.syncSharedData == syncSharedData
      ensures this.trackInfo == trackInfo
    {
      this.isSynced := isSynced;
      this.globalDelay := globalDelay;
      this.visualizers := visualizers;
      this.syncSharedData := syncSharedData;
      this.trackInfo := trackInfo;
    }

    /** Each connected visualizer is listed once. */
    ghost predicate Distinct()
      reads this
    {
      forall i, j :: 0 <= i < j < |visualizers| ==> visualizers[i] != visualizers[j]
    }

    /** Whatever the active beat leads to can be computed at `now`. */
    ghost predicate ReadyFor(now: int)
      reads this, visualizers
    {
      match trackInfo.activeBeat
      case None => true
      case Some(beat) =>
        if isSynced then
          InBand(syncSharedData, beat.confidence) ==> Processable(syncSharedData, now, trackInfo.activeSection)
        else
          TargetsReady(Snapshot(visualizers), beat.confidence, now, trackInfo.activeSection)
    }

    /** Handle one beat at instant `now`. Without an active beat nothing is sent and
        nothing changes; otherwise exactly one of the two strategies runs, chosen by
        `isSynced`, and leaves the other strategy's state untouched. */
    method FireBeat(math: ColorMath, server: Server, now: int)
      requires (trackInfo.activeBeat.Some? && !isSynced ==> Distinct()) && ReadyFor(now)
      modifies this`syncSharedData, visualizers, server
      ensures trackInfo.activeBeat.None? ==>
        && server.log == old(server.log)
        && syncSharedData == old(syncSharedData)
        && Snapshot(visualizers) == old(Snapshot(visualizers))
      ensures trackInfo.activeBeat.Some? && !isSynced ==>
        && server.log == old(server.log)
             + UnsyncedPlan(math, visualizers, old(Snapshot(visualizers)), |visualizers|, GetBeatParamsInfo(trackInfo),
                            trackInfo.activeSection, globalDelay, now)
        && syncSharedData == old(syncSharedData)
        && forall i :: 0 <= i < |visualizers| ==>
             && visualizers[i].colorInfo == Stamped(old(visualizers[i].colorInfo), trackInfo.activeBeat.value.confidence, now)
             && visualizers[i].delay == old(visualizers[i].delay)
      ensures trackInfo.activeBeat.Some? && isSynced ==>
        && server.log == old(server.log)
             + BroadcastPlan(math, old(syncSharedData), GetBeatParamsInfo(trackInfo), trackInfo.activeSection, now)
        && syncSharedData == (if InBand(old(syncSharedData), trackInfo.activeBeat.value.confidence)
                              then old(syncSharedData).(lastBeatTimestamp := now)
                              else old(syncSharedData))
        && Snapshot(visualizers) == old(Snapshot(visualizers))
    {
      if trackInfo.activeBeat.None? {
        return;
      }
      var beatInfo := GetBeatParamsInfo(trackInfo);
      if !isSynced {
        SendBeat(math, server, beatInfo, now);
      } else {
        BroadcastBeat(math, server, beatInfo, now);
      }
    }

    /** The unsynced strategy: each visualizer in list order, independently. */
    method SendBeat(math: ColorMath, server: Server, beatInfo: BeatParamsInfo, now: int)
      requires Distinct()
      requires TargetsReady(Snapshot(visualizers), beatInfo.activeBeatConf, now, trackInfo.activeSection)
      modifies visualizers, server
      ensures server.log == old(server.log)
        + UnsyncedPlan(math, visualizers, old(Snapshot(visualizers)), |visualizers|, beatInfo, trackInfo.activeSection,
                       globalDelay, now)
      ensures forall i :: 0 <= i < |visualizers| ==>
        && visualizers[i].colorInfo == Stamped(old(visualizers[i].colorInfo), beatInfo.activeBeatConf, now)
        && visualizers[i].delay == old(visualizers[i].delay)
    {
      ghost var targets := Snapshot(visualizers);
      var i := 0;
      while i < |visualizers|
        invariant 0 <= i <= |visualizers|
        invariant server.log == old(server.log)
          + UnsyncedPlan(math, visualizers, targets, i, beatInfo, trackInfo.activeSection, globalDelay, now)
        invariant forall j :: 0 <= j < i ==>
          visualizers[j].colorInfo == Stamped(old(visualizers[j].colorInfo), beatInfo.activeBeatConf, now)
          && visualizers[j].delay == old(visualizers[j].delay)
        invariant forall j :: i <= j < |visualizers| ==>
          visualizers[j].colorInfo == old(visualizers[j].colorInfo) && visualizers[j].delay == old(visualizers[j].delay)
      {
        var visualizer := visualizers[i];
        SendBeatTo(math, server, visualizer, beatInfo, now);
        i := i + 1;
      }
    }

    /** The body of the unsynced loop, for one visualizer: skipped unless it is on and
        the confidence lies in its band; otherwise sent its transition with its lead
        time, then stamped with `now`. */
    method SendBeatTo(math: ColorMath, server: Server, visualizer: Visualizer, beatInfo: BeatParamsInfo, now: int)
      requires Accepts(visualizer.colorInfo, beatInfo.activeBeatConf) ==>
        Processable(visualizer.colorInfo, now, trackInfo.activeSection)
      modifies visualizer, server
      ensures server.log == old(server.log)
        + if Accepts(old(visualizer.colorInfo), beatInfo.activeBeatConf)
          then [TargetSend(math, visualizer, Target(old(visualizer.colorInfo), old(visualizer.delay)), beatInfo,
                           trackInfo.activeSection, globalDelay, now)]
          else []
      ensures visualizer.colorInfo == Stamped(old(visualizer.colorInfo), beatInfo.activeBeatConf, now)
      ensures visualizer.delay == old(visualizer.delay)
    {
      var colorInfo := visualizer.colorInfo;
      if colorInfo.state == On {
        if beatInfo.activeBeatConf >= colorInfo.minBeatConf && beatInfo.activeBeatConf <= colorInfo.maxBeatConf {
          var vizDelay := -globalDelay - visualizer.delay;
          var shiftWeights := ShiftParams(colorInfo.loudnessSensibility, colorInfo.tempoSensibility);
          var transitionColors := ProcessNextColor(math, colorInfo, now, beatInfo.activeBeatDur + vizDelay,
                                                   trackInfo.activeSection, beatInfo.colorShiftParams, shiftWeights);
          server.SendData(visualizer, transitionColors, colorInfo.palette, vizDelay);
          visualizer.colorInfo := colorInfo.(lastBeatTimestamp := now);
        }
      }
    }

    /** The synced strategy: the shared configuration only, with no per-device delay. */
    method BroadcastBeat(math: ColorMath, server: Server, beatInfo: BeatParamsInfo, now: int)
      requires InBand(syncSharedData, beatInfo.activeBeatConf) ==> Processable(syncSharedData, now, trackInfo.activeSection)
      modifies this`syncSharedData, server
      ensures server.log == old(server.log)
        + BroadcastPlan(math, old(syncSharedData), beatInfo, trackInfo.activeSection, now)
      ensures syncSharedData == if InBand(old(syncSharedData), beatInfo.activeBeatConf)
                                then old(syncSharedData).(lastBeatTimestamp := now)
                                else old(syncSharedData)
    {
      var sharedData := syncSharedData;
      if beatInfo.activeBeatConf < sharedData.minBeatConf || beatInfo.activeBeatConf > sharedData.maxBeatConf {
        return;
      }
      var shiftWeights := ShiftParams(sharedData.loudnessSensibility, sharedData.tempoSensibility);
      var transitionColors := ProcessNextColor(math, sharedData, now, beatInfo.activeBeatDur,
                                               trackInfo.activeSection, beatInfo.colorShiftParams, shiftWeights);
      server.BroadcastData(sharedData, transitionColors);
      syncSharedData := sharedData.(lastBeatTimestamp := now);
    }
  }
}
