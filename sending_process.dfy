/**
 * The load and send threads of the sending process
 * (C/tasks/north/sending_process/sending_process.cpp), one loop body at a
 * time: the load thread fills the ring of buffer slots with reading sets
 * fetched from storage, the send thread empties them and counts what was
 * sent. Mutexes, condition variables and sleeps are not modelled; a step
 * that would wait reports so.
 */
module SendingThreads {
  import opened Common
  import opened PluginApi
  import opened Sending

  /** TASK_FETCH_SLEEP and TASK_SEND_SLEEP, in milliseconds. */
  const TaskFetchSleep: nat := 500
  const TaskSendSleep: nat := 500
  /** The count the send step uses: the plugin call is commented out and 500 stands in for its answer. */
  const SentPerSet: nat := 500

  /** The storage query of a load step. */
  datatype Request =
    | ReadingsFrom(firstId: nat, blockSize: nat)     // readingFetch(id, blockSize)
    | StatisticsAfter(lastId: nat, limit: nat)       // statistics_history WHERE id > lastId LIMIT blockSize

  /** The query for a data source: "statistics" reads statistics_history, anything else the readings. */
  function FetchRequest(dataSource: string, lastSentId: nat, blockSize: nat): (r: Request)
    requires lastSentId < SizeModulus
    ensures dataSource == "statistics" ==> r == StatisticsAfter(lastSentId, blockSize)
    ensures dataSource != "statistics" ==> r.ReadingsFrom? && r.blockSize == blockSize
    ensures dataSource != "statistics" && lastSentId + 1 < SizeModulus ==> r.firstId == lastSentId + 1
    ensures dataSource != "statistics" && lastSentId + 1 == SizeModulus ==> r.firstId == 0
  {
    if dataSource == "statistics" then StatisticsAfter(lastSentId, blockSize)
    else ReadingsFrom(SizeT(lastSentId + 1), blockSize)
  }

  /** What storage answers to a query: None for an exception or a NULL result. */
  type Storage = Request -> Option<ReadingSet>

  /**
   * The filter pipeline as seen from the load thread: None without
   * filters; otherwise what the last filter hands to useFilteredData for a
   * set, None when it hands nothing.
   */
  type Pipeline = Option<ReadingSet -> Option<ReadingSet>>

  datatype LoadOutcome = SlotFull | Loaded(readings: ReadingSet) | NothingRead(sleep: nat)
  datatype SendOutcome = SlotEmpty | Sent(readings: ReadingSet, count: nat)

  /** The slot a step uses: the index, or 0 once the index has reached the end of the buffer. */
  function Wrapped(index: nat, elements: nat): (r: nat)
    requires elements >= 1
    ensures r < elements
    ensures index < elements ==> r == index
  {
    if index >= elements then 0 else index
  }

  /** The load thread's own state: readIdx. */
  class LoadThread {
    var readIdx: nat

    constructor ()
      ensures readIdx == 0
    {
      readIdx := 0;
    }

    /**
     * One pass of loadDataThread's loop. A slot holding a set is left
     * alone; an empty slot is filled with a non-empty fetch (through the
     * filters when there are any), after which lastSentId is the set's last
     * id and readIdx moves on; an empty or failed fetch changes nothing.
     */
    method Step(p: SendingProcess, storage: Storage, pipeline: Pipeline) returns (outcome: LoadOutcome)
      requires p.Valid() && p.lastSentId < SizeModulus
      requires forall q :: storage(q).Some? ==> storage(q).value.lastId < SizeModulus  // getLastId is an unsigned long
      modifies this, p, p.buffer
      ensures p.Valid() && readIdx <= p.buffer.Length && p.lastSentId < SizeModulus
      ensures p.settings == old(p.settings) && p.sentReadings == old(p.sentReadings) && p.updateDb == old(p.updateDb)
      ensures p.counterUpdates == old(p.counterUpdates) && p.plugin == old(p.plugin) && p.running == old(p.running)
      ensures var i := Wrapped(old(readIdx), p.buffer.Length);
        forall k :: 0 <= k < p.buffer.Length && k != i ==> p.buffer[k] == old(p.buffer[k])
      ensures var i := Wrapped(old(readIdx), p.buffer.Length);
        old(p.buffer[i]).Some? ==>
          outcome == SlotFull && p.buffer[i] == old(p.buffer[i]) && readIdx == i && p.lastSentId == old(p.lastSentId)
      ensures var i := Wrapped(old(readIdx), p.buffer.Length);
        var fetched := storage(FetchRequest(p.settings.dataSource, old(p.lastSentId), p.settings.blockSize));
        old(p.buffer[i]).None? ==>
          if fetched.Some? && |fetched.value.readings| > 0 then
            outcome == Loaded(fetched.value) && p.lastSentId == fetched.value.lastId && readIdx == i + 1 &&
            p.buffer[i] == (if pipeline.None? then Some(fetched.value) else pipeline.value(fetched.value))
          else
            outcome == NothingRead(TaskFetchSleep) && p.buffer[i].None? && readIdx == i &&
            p.lastSentId == old(p.lastSentId)
    {
      if readIdx >= p.buffer.Length {
        readIdx := 0;
      }
      var i := readIdx;
      if p.buffer[i].Some? {
        return SlotFull;
      }
      var request := FetchRequest(p.settings.dataSource, p.lastSentId, p.settings.blockSize);
      var readings := storage(request);
      if readings.Some? && |readings.value.readings| > 0 {
        p.lastSentId := readings.value.lastId;
        if pipeline.Some? {
          p.SetLoadBufferIndex(i);
          var filtered := pipeline.value(readings.value);
          if filtered.Some? {
            p.UseFilteredData(filtered.value);
          }
        } else {
          p.buffer[i] := readings;
        }
        readIdx := readIdx + 1;
        outcome := Loaded(readings.value);
      } else {
        outcome := NothingRead(TaskFetchSleep);
      }
    }
  }

  /**
   * The counters agree: updateDb is set exactly while sent readings wait to
   * be written.
   */
  ghost predicate CountersAgree(p: SendingProcess)
    reads p
  {
    p.updateDb <==> p.sentReadings != 0
  }

  /** The send thread's own state: sendIdx and totSent, and (ghost) how many sets it has sent. */
  class SendThread {
    var sendIdx: nat
    var totSent: nat
    ghost var setsSent: nat

    constructor ()
      ensures sendIdx == 0 && totSent == 0 && setsSent == 0
    {
      sendIdx := 0;
      totSent := 0;
      setsSent := 0;
    }

    /** Every set sent is counted once: in totSent once flushed, in sentReadings until then. */
    ghost predicate Accounts(p: SendingProcess)
      reads this, p
    {
      totSent + p.sentReadings == SentPerSet * setsSent
    }

    /**
     * The counter flush: when updateDb is set, the counters are written,
     * totSent takes the sent readings, sentReadings returns to 0 and
     * updateDb to false; otherwise nothing happens.
     */
    method Flush(p: SendingProcess)
      requires CountersAgree(p) && Accounts(p)
      modifies this, p
      ensures CountersAgree(p) && Accounts(p) && !p.updateDb && p.sentReadings == 0
      ensures sendIdx == old(sendIdx) && setsSent == old(setsSent)
      ensures old(p.updateDb) ==>
        p.counterUpdates == old(p.counterUpdates) + [(p.settings.streamId, p.lastSentId, old(p.sentReadings))] &&
        totSent == old(totSent) + old(p.sentReadings)
      ensures !old(p.updateDb) ==> p.counterUpdates == old(p.counterUpdates) && totSent == old(totSent)
      ensures p.settings == old(p.settings) && p.lastSentId == old(p.lastSentId) && p.loadBufferIndex == old(p.loadBufferIndex)
      ensures p.plugin == old(p.plugin) && p.running == old(p.running)
    {
      if p.updateDb {
        p.counterUpdates := p.counterUpdates + [(p.settings.streamId, p.lastSentId, p.sentReadings)];
        totSent := totSent + p.sentReadings;
        p.sentReadings := 0;
        p.updateDb := false;
      }
    }

    /**
     * One pass of sendDataThread's loop: at the end of the buffer the
     * counters are flushed and sendIdx returns to 0; an empty slot flushes
     * the counters and waits; a held set is sent, its slot cleared, its
     * count added to sentReadings and sendIdx moves on.
     */
    method Step(p: SendingProcess) returns (outcome: SendOutcome)
      requires p.Valid() && CountersAgree(p) && Accounts(p)
      modifies this, p, p.buffer
      ensures p.Valid() && CountersAgree(p) && Accounts(p) && sendIdx <= p.buffer.Length
      ensures p.settings == old(p.settings) && p.lastSentId == old(p.lastSentId) && p.plugin == old(p.plugin)
      ensures p.running == old(p.running) && p.loadBufferIndex == old(p.loadBufferIndex)
      ensures var i := Wrapped(old(sendIdx), p.buffer.Length);
        forall k :: 0 <= k < p.buffer.Length && k != i ==> p.buffer[k] == old(p.buffer[k])
      ensures var i := Wrapped(old(sendIdx), p.buffer.Length);
        old(sendIdx) >= p.buffer.Length || old(p.buffer[i]).None? ==>
          p.counterUpdates == old(p.counterUpdates) +
            (if old(p.updateDb) then [(p.settings.streamId, p.lastSentId, old(p.sentReadings))] else []) &&
          totSent == old(totSent) + old(p.sentReadings)
      ensures var i := Wrapped(old(sendIdx), p.buffer.Length);
        old(sendIdx) < p.buffer.Length && old(p.buffer[i]).Some? ==>
          p.counterUpdates == old(p.counterUpdates) && totSent == old(totSent)
      ensures var i := Wrapped(old(sendIdx), p.buffer.Length);
        old(p.buffer[i]).None? ==>
          outcome == SlotEmpty && p.buffer[i].None? && sendIdx == i && setsSent == old(setsSent) &&
          !p.updateDb && totSent == old(totSent) + old(p.sentReadings)
      ensures var i := Wrapped(old(sendIdx), p.buffer.Length);
        old(p.buffer[i]).Some? ==>
          outcome == Sent(old(p.buffer[i]).value, SentPerSet) && p.buffer[i].None? && sendIdx == i + 1 &&
          setsSent == old(setsSent) + 1 && p.updateDb &&
          p.sentReadings == (if old(sendIdx) >= p.buffer.Length then 0 else old(p.sentReadings)) + SentPerSet
    {
      if sendIdx >= p.buffer.Length {
        Flush(p);
        sendIdx := 0;
      }
      var i := sendIdx;
      var held := p.buffer[i];
      if held.None? {
        Flush(p);
        return SlotEmpty;
      }
      var sent := SentPerSet;
      p.updateDb := true;
      p.buffer[i] := None;
      p.sentReadings := p.sentReadings + sent;
      setsSent := setsSent + 1;
      sendIdx := sendIdx + 1;
      outcome := Sent(held.value, sent);
    }
  }
}
