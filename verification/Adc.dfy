/** The legacy ADC driver: an intrusive list of channels and an interrupt-driven scan. */
module Adc {
  import opened Arith

  class Channel {
    var next: Channel?
    const config: int

    constructor (config: int)
      ensures this.config == config && next == null
    {
      this.config := config;
      next := null;
    }
  }

  datatype DrvState = Initialized | PoweredOn

  datatype Err = Success | Busy

  datatype AdcEvent = EvtDone(buffer: array<int>, size: nat) | EvtSample(value: int)

  /** Position in the channel list of sample k of a scan: one further each time, then back to
      the head. */
  function ScanIndex(k: nat, n: nat): (p: nat)
    requires n > 0
    ensures p < n
  {
    if k == 0 || ScanIndex(k - 1, n) == n - 1 then 0 else ScanIndex(k - 1, n) + 1
  }

  /** START tasks that must come from outside for the first k samples: one at each visit to
      the head. */
  function StartsFor(k: nat, n: nat): nat
    requires n > 0
  {
    if k == 0 then 0 else StartsFor(k - 1, n) + if ScanIndex(k - 1, n) == 0 then 1 else 0
  }

  /** Sample k comes from channel k mod n, and k samples need k / n starts, rounded up. */
  lemma {:induction false} ScanClosedForm(k: nat, n: nat)
    requires n > 0
    ensures ScanIndex(k, n) == k % n
    ensures StartsFor(k, n) == k / n + if k % n == 0 then 0 else 1
  {
    if k == 0 {
      DivMod(0, n, 0, 0);
    } else {
      ScanClosedForm(k - 1, n);
      NextQuotient(k - 1, n);
    }
  }

  lemma NextQuotient(k: nat, n: nat)
    requires n > 0
    ensures (k + 1) % n == if k % n == n - 1 then 0 else k % n + 1
    ensures (k + 1) / n == if k % n == n - 1 then k / n + 1 else k / n
  {
    var q, r := k / n, k % n;
    assert k == n * q + r;
    if r == n - 1 {
      assert k + 1 == n * (q + 1);
      DivMod(k + 1, n, q + 1, 0);
    } else {
      DivMod(k + 1, n, q, r + 1);
    }
  }

  /** Element i of the list, null past its end. */
  function At(list: seq<Channel>, i: nat): Channel? {
    if i < |list| then list[i] else null
  }

  class Driver {
    // control block
    var eventHandler: bool
    var head: Channel?
    var currentConv: Channel?
    var buffer: array?<int>
    var size: nat
    var idx: nat
    var state: DrvState
    // peripheral
    var intEnabled: bool
    var enabled: bool
    var converting: bool                 // BUSY: START given, END not yet handled
    ghost var configured: Channel?       // channel of the last nrf_adc_init
    // history
    ghost var list: seq<Channel>         // enabled channels in enable order
    ghost var taken: seq<(Channel, int)> // samples of the current scan with their channels
    ghost var externalStarts: nat        // START tasks from outside in the current scan
    ghost var events: seq<AdcEvent>

    ghost predicate Linked()
      reads this, list
    {
      && head == At(list, 0)
      && (forall i {:trigger list[i].next} | 0 <= i < |list| :: list[i].next == At(list, i + 1))
      && (forall i, j | 0 <= i < j < |list| :: list[i] != list[j])
    }

    ghost predicate Scanning()
      reads this
    { state.PoweredOn? && buffer != null }

    /** Every sample taken so far sits in its slot and came from its channel. */
    ghost predicate Placed()
      reads this, buffer
    {
      && list != [] && buffer != null && |taken| <= buffer.Length
      && forall k | 0 <= k < |taken| :: taken[k].0 == list[ScanIndex(k, |list|)] && buffer[k] == taken[k].1
    }

    ghost predicate Valid()
      reads this, list, buffer
    {
      && Linked()
      && (state.PoweredOn? <==> enabled)
      && (converting ==> enabled)
      && (state.PoweredOn? && buffer == null ==> converting)
      && (Scanning() ==>
            && Placed() && |taken| == idx < size <= buffer.Length
            && currentConv == configured == list[ScanIndex(idx, |list|)]
            && (ScanIndex(idx, |list|) != 0 ==> converting)
            && externalStarts == StartsFor(if converting then idx + 1 else idx, |list|))
    }

    constructor (handler: bool)
      ensures Valid() && eventHandler == handler && list == [] && state.Initialized? && !converting
      ensures events == []
    {
      eventHandler, head, currentConv, buffer, size, idx, state := handler, null, null, null, 0, 0, Initialized;
      intEnabled, enabled, configured, converting := false, false, null, false;
      list, taken, externalStarts, events := [], [], 0, [];
    }

    // ---------- the channel list ----------

    method ChannelEnable(channel: Channel)
      requires Valid() && !state.PoweredOn? && channel !in list
      modifies `head, `list, channel, list
      ensures Valid() && list == old(list) + [channel]
    {
      channel.next := null;
      if head == null {
        head := channel;
      } else {
        var curr := head;
        ghost var i := 0;
        while curr.next != null
          invariant Linked() && i < |list| && curr == list[i]
          decreases |list| - i
        {
          curr := curr.next;
          i := i + 1;
        }
        curr.next := channel;
      }
      list := list + [channel];
    }

    /** The search loop of a disable: the channel and the one linked to it. */
    method Find(channel: Channel) returns (prev: Channel?, curr: Channel, ghost i: nat)
      requires Linked() && channel in list
      ensures i < |list| && curr == channel == list[i]
      ensures prev == if i == 0 then null else list[i - 1]
      ensures curr == channel && if prev == null then head == channel else prev.next == channel
    {
      curr := head;
      prev := null;
      i := 0;
      while curr != channel
        invariant i < |list| && curr == list[i]
        invariant prev == if i == 0 then null else list[i - 1]
        invariant channel in list[i..]
        decreases |list| - i
      {
        prev := curr;
        curr := curr.next;
        i := i + 1;
      }
    }

    method ChannelDisable(channel: Channel) returns (ghost i: nat)
      requires Valid() && !state.PoweredOn? && channel in list
      modifies `head, `list, list
      ensures Valid()
      ensures i < |old(list)| && old(list)[i] == channel && list == old(list)[..i] + old(list)[i+1..]
    {
      var prev, curr;
      prev, curr, i := Find(channel);
      if prev != null {
        prev.next := curr.next;
      } else {
        head := curr.next;
      }
      list := list[..i] + list[i+1..];
      assert forall k | 0 <= k <= |list| :: At(list, k) == At(old(list), if k < i then k else k + 1);
    }

    method AllChannelsDisable()
      requires Valid() && !state.PoweredOn?
      modifies `head, `list
      ensures Valid() && list == []
    {
      head := null;
      list := [];
    }

    // ---------- conversions ----------

    /** nrf_adc_init and nrf_adc_enable. */
    method Configure(channel: Channel)
      modifies `configured, `enabled
      ensures configured == channel && enabled
    {
      configured := channel;
      enabled := true;
    }

    /** nrfx_adc_sample, or the START task triggered through PPI. Between scans the ADC is disabled
        and the task has no effect. */
    method Sample()
      requires Valid() && !converting
      modifies `converting, `externalStarts
      ensures Valid() && converting == Scanning()
      ensures externalStarts == old(externalStarts) + if Scanning() then 1 else 0
    {
      if enabled {
        converting := true;
        externalStarts := externalStarts + 1;
      }
    }

    /** One END event during a scan, with the result the ADC holds. */
    method SampleProcess(value: int) returns (done: bool)
      requires Valid() && Scanning() && converting
      modifies `converting, `enabled, `idx, `currentConv, `configured, `taken, buffer
      ensures done <==> old(idx) + 1 == size
      ensures taken == old(taken) + [(old(configured), value)] && idx == |taken| && Placed()
      ensures !done ==> Valid()
      ensures done ==> Linked() && !converting && !enabled && externalStarts == StartsFor(size, |list|)
    {
      Store(value);
      if idx < size {
        Advance();
        return false;
      } else {
        return true;
      }
    }

    method Store(value: int)
      requires Valid() && Scanning() && converting
      modifies `converting, `enabled, `idx, `taken, buffer
      ensures taken == old(taken) + [(old(configured), value)] && idx == old(idx) + 1 == |taken|
      ensures Placed() && Linked() && !converting && !enabled
      ensures externalStarts == StartsFor(idx, |list|)
    {
      converting := false;
      enabled := false;
      buffer[idx] := value;
      taken := taken + [(configured, value)];
      idx := idx + 1;
    }

    /** On to the next channel, at once if there is one, else from the head on the next START. */
    method Advance()
      requires Linked() && Placed() && Scanning() && |taken| == idx < size <= buffer.Length && idx > 0
      requires currentConv == list[ScanIndex(idx - 1, |list|)] && !converting
      requires externalStarts == StartsFor(idx, |list|)
      modifies `converting, `enabled, `currentConv, `configured
      ensures Valid()
    {
      var taskTrigger := NextChannel();
      Configure(currentConv);
      if taskTrigger {
        converting := true;
      }
    }

    /** The channel linked after the current one, or the head. */
    method NextChannel() returns (taskTrigger: bool)
      requires Linked() && list != [] && idx > 0 && currentConv == list[ScanIndex(idx - 1, |list|)]
      modifies `currentConv
      ensures currentConv == list[ScanIndex(idx, |list|)]
      ensures taskTrigger <==> ScanIndex(idx, |list|) != 0
    {
      taskTrigger := false;
      if currentConv.next == null {
        currentConv := head;
      } else {
        currentConv := currentConv.next;
        taskTrigger := true;
      }
    }

    /** Sets up a scan and leaves it to the END interrupts. */
    method BufferConvert(target: array<int>, count: nat) returns (r: Err)
      requires Valid() && eventHandler && list != [] && 1 <= count <= target.Length
      modifies `state, `currentConv, `size, `idx, `buffer, `configured, `enabled, `intEnabled,
               `converting, `taken, `externalStarts
      ensures Valid()
      ensures r == if old(state).PoweredOn? then Busy else Success
      ensures r.Busy? ==> unchanged(this)
      ensures r.Success? ==>
        && Scanning() && buffer == target && size == count && idx == 0 && taken == []
        && !converting && externalStarts == 0 && intEnabled
    {
      if state == PoweredOn { return Busy; }
      StartScan(target, count);
      intEnabled := true;
      return Success;
    }

    method StartScan(target: array<int>, count: nat)
      requires Valid() && !state.PoweredOn? && list != [] && 1 <= count <= target.Length
      modifies `state, `currentConv, `size, `idx, `buffer, `configured, `enabled,
               `converting, `taken, `externalStarts
      ensures Valid() && Scanning() && buffer == target && size == count && idx == 0 && taken == []
      ensures !converting && externalStarts == 0
    {
      state := PoweredOn;
      currentConv := head;
      size := count;
      idx := 0;
      buffer := target;
      taken, externalStarts, converting := [], 0, false;
      Configure(currentConv);
    }

    /** The next END event of a blocking scan, after a START from outside if none is pending. */
    method StartAndProcess(value: int) returns (done: bool)
      requires Valid() && Scanning()
      modifies `converting, `externalStarts, `enabled, `idx, `currentConv, `configured, `taken, buffer
      ensures done <==> old(idx) + 1 == size
      ensures taken == old(taken) + [(old(configured), value)] && idx == |taken| && Placed()
      ensures !done ==> Valid()
      ensures done ==> Linked() && !converting && !enabled && externalStarts == StartsFor(size, |list|)
    {
      if !converting { Sample(); }
      done := SampleProcess(value);
    }

    /** Blocking conversion: the loop waits for each END event and processes it. Whatever the
        hardware delivers comes from results; starts come from outside when the scan waits. */
    method BufferConvertBlocking(target: array<int>, count: nat, results: nat -> int) returns (r: Err)
      requires Valid() && !eventHandler && list != [] && 1 <= count <= target.Length
      modifies `state, `currentConv, `size, `idx, `buffer, `configured, `enabled,
               `converting, `taken, `externalStarts, target
      ensures Valid()
      ensures r == if old(state).PoweredOn? then Busy else Success
      ensures r.Busy? ==> unchanged(this) && unchanged(target)
      ensures r.Success? ==>
        && state.Initialized? && externalStarts == StartsFor(count, |list|)
        && (forall k | 0 <= k < count :: target[k] == results(k))
        && |taken| == count
        && (forall k | 0 <= k < count :: taken[k] == (list[ScanIndex(k, |list|)], results(k)))
    {
      if state == PoweredOn { return Busy; }
      StartScan(target, count);
      WaitLoop(results);
      state := Initialized;
      r := Success;
    }

    /** Every sample taken is the one the hardware delivered at its turn. */
    ghost predicate Delivered(results: nat -> int)
      reads this
    { forall k | 0 <= k < |taken| :: taken[k].1 == results(k) }

    /** The loop of a blocking conversion. */
    method WaitLoop(results: nat -> int)
      requires Valid() && Scanning() && taken == []
      modifies `converting, `externalStarts, `enabled, `idx, `currentConv, `configured, `taken, buffer
      ensures Linked() && Placed() && Delivered(results) && |taken| == size && !converting && !enabled
      ensures externalStarts == StartsFor(size, |list|)
    {
      var done := false;
      while !done
        invariant |taken| == idx <= size && Linked() && Placed() && Delivered(results)
        invariant if done then idx == size && !converting && !enabled && externalStarts == StartsFor(size, |list|)
                  else Valid() && Scanning()
        decreases !done, size - idx
      {
        done := StartAndProcess(results(idx));
      }
    }

    /** A single conversion of one channel. */
    method SampleConvert(channel: Channel, blocking: bool, result: int) returns (r: Err, value: int)
      requires Valid() && (blocking || eventHandler)
      modifies `state, `configured, `enabled, `intEnabled, `converting, `buffer
      ensures Valid()
      ensures r == if old(state).PoweredOn? then Busy else Success
      ensures r.Busy? ==> unchanged(this)
      ensures r.Success? && blocking ==>
        && value == result && configured == channel && state.Initialized? && buffer == old(buffer)
        && !intEnabled && !enabled && !converting
      ensures r.Success? && !blocking ==>
        state.PoweredOn? && converting && configured == channel && buffer == null && intEnabled
    {
      value := 0;
      if state == PoweredOn { return Busy, 0; }
      state := PoweredOn;
      Configure(channel);
      intEnabled := false;
      converting := true;
      if blocking {
        converting := false;
        value := result;
        enabled := false;
        state := Initialized;
      } else {
        buffer := null;
        intEnabled := true;
      }
      r := Success;
    }

    /** The END interrupt, with the result the ADC holds. */
    method IrqHandler(value: int)
      requires Valid() && state.PoweredOn? && converting
      modifies `converting, `enabled, `idx, `currentConv, `configured, `taken, `state, `intEnabled,
               `events, buffer
      ensures Valid()
      ensures old(buffer) == null ==>
        && events == old(events) + [EvtSample(value)] && state.Initialized? && taken == old(taken)
        && !intEnabled && !enabled
      ensures old(buffer) != null ==> taken == old(taken) + [(old(configured), value)]
      ensures old(buffer) != null && old(idx) + 1 < size ==>
        Scanning() && idx == old(idx) + 1 && events == old(events)
      ensures old(buffer) != null && old(idx) + 1 == size ==>
        && events == old(events) + [EvtDone(buffer, size)] && state.Initialized? && !intEnabled
        && Placed() && |taken| == size && externalStarts == StartsFor(size, |list|)
    {
      if buffer == null {
        converting := false;
        intEnabled := false;
        enabled := false;
        state := Initialized;
        events := events + [EvtSample(value)];
      } else {
        var done := SampleProcess(value);
        if done {
          intEnabled := false;
          state := Initialized;
          events := events + [EvtDone(buffer, size)];
        }
      }
    }

    /** The next END interrupt of a scan, after a START from outside if none is pending. */
    method StartAndInterrupt(value: int) returns (started: bool)
      requires Valid() && Scanning()
      modifies `converting, `externalStarts, `enabled, `idx, `currentConv, `configured, `taken, `state,
               `intEnabled, `events, buffer
      ensures Valid() && Placed() && |taken| == |old(taken)| + 1 && taken[..|old(taken)|] == old(taken)
      ensures taken[|old(taken)|].1 == value
      ensures externalStarts == old(externalStarts) + if started then 1 else 0
      ensures old(idx) + 1 < size ==> Scanning() && idx == old(idx) + 1 && events == old(events)
      ensures old(idx) + 1 == size ==>
        && events == old(events) + [EvtDone(buffer, size)] && state.Initialized?
        && externalStarts == StartsFor(size, |list|)
    {
      started := !converting;
      if started { Sample(); }
      IrqHandler(value);
    }

    /** A whole non-blocking scan: one END interrupt per sample, a START from outside whenever
        none is pending. The caller needs exactly count / |list| starts, rounded up, and is
        notified once, at the last END. */
    method ScanAll(target: array<int>, values: seq<int>) returns (starts: nat)
      requires Valid() && eventHandler && !state.PoweredOn? && list != [] && 1 <= |values| <= target.Length
      modifies this, target
      ensures Valid() && state.Initialized? && list == old(list)
      ensures events == old(events) + [EvtDone(target, |values|)]
      ensures starts == |values| / |list| + if |values| % |list| == 0 then 0 else 1
      ensures target[..|values|] == values && |taken| == |values|
      ensures forall k | 0 <= k < |values| :: taken[k] == (list[k % |list|], values[k])
    {
      var r := BufferConvert(target, |values|);
      starts := 0;
      for i := 0 to |values|
        invariant Valid() && list == old(list) && list != [] && buffer == target && size == |values| <= target.Length
        invariant i < |values| ==> Scanning() && idx == i && starts == externalStarts && events == old(events)
        invariant i == |values| ==>
          && state.Initialized? && starts == StartsFor(|values|, |list|)
          && events == old(events) + [EvtDone(target, |values|)]
        invariant |taken| == i && Placed() && forall k | 0 <= k < i :: taken[k].1 == values[k]
      {
        var started := StartAndInterrupt(values[i]);
        if started { starts := starts + 1; }
      }
      ScanClosedForm(|values|, |list|);
      forall k | 0 <= k < |values| ensures taken[k] == (list[k % |list|], values[k]) {
        ScanClosedForm(k, |list|);
      }
    }
  }
}
