/** The publisher object: its methods under the queue mutex are the transitions of JudgeQueue. */
module JudgePublisher {
  import opened Bytes
  import Q = JudgeQueue
  import opened JudgeQueue

  class DeviceQueue {
    var pending: seq<Publication>
    var scheduled: bool
    var outstandingCount: int
    var outstandingBytes: int

    constructor ()
      ensures Contents() == NO_QUEUE
    {
      pending, scheduled, outstandingCount, outstandingBytes := [], false, 0, 0;
    }

    ghost function Contents(): Queue
      reads this
    {
      Queue(pending, scheduled, outstandingCount, outstandingBytes)
    }

    /** Charge one publication; the answer says whether the device now needs a token. */
    method Append(publication: Publication) returns (needsToken: bool)
      modifies this
      ensures Contents() == Charged(old(Contents()), publication)
      ensures needsToken == !old(scheduled)
    {
      pending := pending + [publication];
      outstandingCount := outstandingCount + 1;
      outstandingBytes := outstandingBytes + |publication.payload|;
      needsToken := !scheduled;
      scheduled := true;
    }

    method Pop() returns (publication: Publication)
      requires pending != []
      modifies this
      ensures publication == old(pending)[0]
      ensures Contents() == old(Contents()).(pending := old(pending)[1..])
    {
      publication := pending[0];
      pending := pending[1..];
    }

    method Release(publication: Publication)
      modifies this
      ensures Contents() == Settled(old(Contents()), publication)
    {
      outstandingCount := outstandingCount - 1;
      outstandingBytes := outstandingBytes - |publication.payload|;
    }
  }

  /** No two devices share a queue object. */
  ghost predicate Separate(queues: map<DeviceID, DeviceQueue>) {
    forall d, e | d in queues && e in queues && d != e :: queues[d] != queues[e]
  }

  class Publisher {
    const config: Config
    var readyDevices: seq<DeviceID>
    var deviceQueues: map<DeviceID, DeviceQueue>
    var queuedPublications: int
    var queueBytes: int

    // What the workers are doing, and the histories.
    ghost var workers: seq<Worker>
    ghost var accepted: seq<Publication>
    ghost var completed: seq<Publication>
    ghost var taken: seq<DeviceID>

    ghost function Contents(): State
      reads this, deviceQueues.Values
    {
      State(Queues(), readyDevices, queuedPublications, queueBytes, workers, accepted, completed, taken)
    }

    ghost function Queues(): map<DeviceID, Queue>
      reads this`deviceQueues, deviceQueues.Values
    {
      map d | d in deviceQueues :: deviceQueues[d].Contents()
    }

    lemma Fields()
      ensures Contents().ready == readyDevices && Contents().workers == workers
      ensures Contents().queues.Keys == deviceQueues.Keys
    {
    }

    ghost predicate Valid()
      reads this, deviceQueues.Values
    {
      && config.Valid()
      && Separate(deviceQueues)
      && Inv(config, Contents())
    }

    constructor (config: Config)
      requires config.Valid()
      ensures Valid() && this.config == config && Contents() == Init(config.workerCount)
      ensures deviceQueues == map[]
    {
      this.config := config;
      readyDevices, deviceQueues, queuedPublications, queueBytes := [], map[], 0, 0;
      workers, accepted, completed, taken := seq(config.workerCount, i => Idle), [], [], [];
      new;
      assert Queues() == map[];
      InitInv(config);
    }

    /** The channel send made while the mutex is held: its precondition is that it does not block. */
    method Send(d: DeviceID)
      requires |readyDevices| < config.queueSize
      modifies this`readyDevices
      ensures Contents() == old(Contents()).(ready := old(readyDevices) + [d])
    {
      hide Queues;
      readyDevices := readyDevices + [d];
    }

    /** The four budgets, in the order they are checked. */
    method Admit(publication: Publication) returns (verdict: Verdict)
      ensures verdict == Admission(config, Contents(), publication)
    {
      if |publication.payload| == 0 {
        return EmptyEvent;
      }
      if queuedPublications >= config.queueSize {
        return QueueFull;
      }
      if |publication.payload| > config.queueMaxBytes - queueBytes {
        return QueueBytesFull;
      }
      var deviceCount, deviceBytes := 0, 0;
      if publication.deviceID in deviceQueues {
        var deviceQueue := deviceQueues[publication.deviceID];
        deviceCount, deviceBytes := deviceQueue.outstandingCount, deviceQueue.outstandingBytes;
      }
      if deviceCount >= config.deviceQueueSize {
        return DeviceQueueFull;
      }
      if |publication.payload| > config.deviceQueueMaxBytes - deviceBytes {
        return DeviceQueueBytesFull;
      }
      verdict := Accepted;
    }

    method FindOrCreate(deviceID: DeviceID) returns (deviceQueue: DeviceQueue)
      requires Separate(deviceQueues)
      modifies this`deviceQueues
      ensures Separate(deviceQueues) && deviceID in deviceQueues && deviceQueues[deviceID] == deviceQueue
      ensures deviceID in old(deviceQueues) ==> deviceQueues == old(deviceQueues)
      ensures deviceID !in old(deviceQueues) ==>
        fresh(deviceQueue) && deviceQueues == old(deviceQueues)[deviceID := deviceQueue]
      ensures deviceQueue.Contents() == QueueOf(old(Contents()), deviceID)
      ensures Queues() == old(Queues())[deviceID := deviceQueue.Contents()]
      ensures fresh(deviceQueues.Values - old(deviceQueues.Values))
    {
      if deviceID !in deviceQueues {
        var created := new DeviceQueue();
        deviceQueues := deviceQueues[deviceID := created];
      }
      deviceQueue := deviceQueues[deviceID];
    }

    /** When one queue object changed, the map changed at that device only. */
    twostate lemma OneQueueChanged(d: DeviceID)
      requires Separate(old(deviceQueues)) && unchanged(this`deviceQueues) && d in deviceQueues
      requires forall q | q in deviceQueues.Values && q != deviceQueues[d] :: unchanged(q)
      ensures Queues() == old(Queues())[d := deviceQueues[d].Contents()]
    {
      forall e | e in deviceQueues && e != d
        ensures deviceQueues[e].Contents() == old(deviceQueues[e].Contents())
      {
        assert deviceQueues[e] in deviceQueues.Values;
      }
    }

    /** Charge the device's queue object, creating it when needed. */
    method ChargeDevice(publication: Publication) returns (needsToken: bool)
      requires Separate(deviceQueues)
      modifies this`deviceQueues, deviceQueues.Values
      ensures Separate(deviceQueues) && fresh(deviceQueues.Values - old(deviceQueues.Values))
      ensures needsToken == !QueueOf(old(Contents()), publication.deviceID).scheduled
      ensures var d := publication.deviceID;
        Queues() == old(Queues())[d := Charged(QueueOf(old(Contents()), d), publication)]
    {
      hide Charged, Contents, Separate;
      var d := publication.deviceID;
      var deviceQueue := FindOrCreate(d);
      label found:
      hide Queues;
      needsToken := deviceQueue.Append(publication);
      OneQueueChanged@found(d);
    }

    /** Everything acceptance does but sending the token. */
    method Charge(publication: Publication) returns (needsToken: bool)
      requires Separate(deviceQueues)
      modifies this`deviceQueues, this`queuedPublications, this`queueBytes, this`accepted, deviceQueues.Values
      ensures Separate(deviceQueues) && fresh(deviceQueues.Values - old(deviceQueues.Values))
      ensures needsToken == !QueueOf(old(Contents()), publication.deviceID).scheduled
      ensures Contents() == Taken(old(Contents()), publication)
    {
      hide Charged, QueueOf, Queues;
      needsToken := ChargeDevice(publication);
      queuedPublications := queuedPublications + 1;
      queueBytes := queueBytes + |publication.payload|;
      accepted := accepted + [publication];
    }

    method Enqueue(deviceID: DeviceID, encoded: seq<Byte>) returns (verdict: Verdict)
      requires Valid()
      modifies this, deviceQueues.Values
      ensures Valid() && fresh(deviceQueues.Values - old(deviceQueues.Values))
      ensures verdict == Admission(config, old(Contents()), Publication(deviceID, encoded))
      ensures Contents() == Q.Enqueue(config, old(Contents()), Publication(deviceID, encoded))
    {
      hide Inv, Q.Enqueue, Admission, QueueOf, Contents, Taken;
      var publication := Publication(deviceID, encoded);
      ghost var before := Contents();
      EnqueueKeeps(config, before, publication);
      verdict := Admit(publication);
      AcceptedGrows(config, before, publication);
      if verdict != Accepted {
        return;
      }
      Fields();
      var needsToken := Charge(publication);
      if needsToken {
        Fields();
        Send(deviceID);
      }
    }

    /** A worker receives from the ready channel, outside the mutex. */
    method TakeToken(w: nat) returns (deviceID: DeviceID)
      requires Valid() && w < |workers| && workers[w].Idle? && readyDevices != []
      modifies this`readyDevices, this`workers, this`taken
      ensures Valid() && w < |workers| && workers[w] == Holding(deviceID)
      ensures Contents() == Take(old(Contents()), w)
    {
      hide Inv, Queues;
      TakeKeeps(config, Contents(), w);
      deviceID := readyDevices[0];
      taken := taken + [deviceID];
      workers := workers[w := Holding(deviceID)];
      readyDevices := readyDevices[1..];
    }

    /** ok is always true: a token never outlives its device's work. */
    method NextPublication(w: nat, deviceID: DeviceID) returns (publication: Publication, ok: bool)
      requires Valid() && w < |workers| && workers[w] == Holding(deviceID)
      modifies this, deviceQueues.Values
      ensures Valid() && deviceQueues == old(deviceQueues)
      ensures ok && w < |workers| && workers[w] == Publishing(publication)
      ensures Contents() == Next(old(Contents()), w)
    {
      hide Inv;
      ghost var before := Contents();
      NextKeeps(config, before, w);
      TokenFindsWork(config, before, w);
      if deviceID !in deviceQueues || |deviceQueues[deviceID].pending| == 0 {
        assert false;
        return Publication("", []), false;
      }
      var deviceQueue := deviceQueues[deviceID];
      publication := deviceQueue.Pop();
      OneQueueChanged(deviceID);
      queuedPublications := if queuedPublications - 1 < 0 then 0 else queuedPublications - 1;
      workers := workers[w := Publishing(publication)];
      ok := true;
      assert Contents() == Next(before, w);
    }

    /** Give back the device's charge; the answer says whether the device still has work. */
    method ReleaseDevice(publication: Publication) returns (more: bool)
      requires Separate(deviceQueues) && publication.deviceID in deviceQueues
      modifies this`deviceQueues, deviceQueues.Values
      ensures Separate(deviceQueues) && deviceQueues.Values <= old(deviceQueues.Values)
      ensures more == (old(Contents()).queues[publication.deviceID].pending != [])
      ensures var d := publication.deviceID;
        var queues := old(Contents()).queues;
        Queues() == if more then queues[d := Settled(queues[d], publication)] else queues - {d}
    {
      var d := publication.deviceID;
      deviceQueues[d].Release(publication);
      OneQueueChanged(d);
      more := |deviceQueues[d].pending| > 0;
      if !more {
        label settled:
        deviceQueues := deviceQueues - {d};
        assert Queues() == old@settled(Queues()) - {d};
      }
    }

    /** Everything a completion does but sending the token back. */
    method Settle(w: nat, publication: Publication) returns (more: bool)
      requires Separate(deviceQueues) && publication.deviceID in deviceQueues && w < |workers|
      modifies this`deviceQueues, this`queueBytes, this`workers, this`completed, deviceQueues.Values
      ensures Separate(deviceQueues) && deviceQueues.Values <= old(deviceQueues.Values)
      ensures more == (old(Contents()).queues[publication.deviceID].pending != [])
      ensures Contents() == Returned(old(Contents()), w, publication)
    {
      hide Settled, Separate, Queues;
      var released := |publication.payload|;
      queueBytes := if queueBytes - released < 0 then 0 else queueBytes - released;
      more := ReleaseDevice(publication);
      workers := workers[w := Idle];
      completed := completed + [publication];
    }

    method CompletePublication(w: nat, publication: Publication)
      requires Valid() && w < |workers| && workers[w] == Publishing(publication)
      modifies this, deviceQueues.Values
      ensures Valid() && deviceQueues.Values <= old(deviceQueues.Values)
      ensures Contents() == Complete(old(Contents()), w)
    {
      hide Inv, Complete, Contents, Returned, HasNext;
      ghost var before := Contents();
      Fields();
      CompleteFinds(config, before, w);
      CompleteKeeps(config, before, w);
      CompletedIs(before, w);
      var more := Settle(w, publication);
      if more {
        Fields();
        Send(publication.deviceID);
      }
    }
  }

  /** An accepted event, before its token is sent. */
  function Taken(s: State, p: Publication): State {
    s.(queues := s.queues[p.deviceID := Charged(QueueOf(s, p.deviceID), p)], queued := s.queued + 1,
       bytes := s.bytes + |p.payload|, accepted := s.accepted + [p])
  }

  lemma AcceptedGrows(c: Config, s: State, p: Publication)
    ensures Q.Enqueue(c, s, p) ==
      if Admission(c, s, p) != Accepted then s
      else if QueueOf(s, p.deviceID).scheduled then Taken(s, p)
      else Taken(s, p).(ready := s.ready + [p.deviceID])
    ensures Taken(s, p).ready == s.ready
    ensures Admission(c, s, p) == Accepted && !QueueOf(s, p.deviceID).scheduled ==>
      |Q.Enqueue(c, s, p).ready| == |s.ready| + 1
  {
    hide Admission, QueueOf;
  }

  /** A finished attempt, before its token is sent back. */
  function Returned(s: State, w: nat, p: Publication): State
    requires p.deviceID in s.queues && w < |s.workers|
  {
    var q := s.queues[p.deviceID];
    s.(bytes := if s.bytes - |p.payload| < 0 then 0 else s.bytes - |p.payload|,
       queues := if q.pending != [] then s.queues[p.deviceID := Settled(q, p)] else s.queues - {p.deviceID},
       workers := s.workers[w := Idle],
       completed := s.completed + [p])
  }

  lemma CompletedIs(s: State, w: nat)
    requires w < |s.workers| && s.workers[w].Publishing? && s.workers[w].pub.deviceID in s.queues
    ensures var p := s.workers[w].pub;
      && Complete(s, w) == (
           if s.queues[p.deviceID].pending != [] then Returned(s, w, p).(ready := s.ready + [p.deviceID])
           else Returned(s, w, p))
      && Returned(s, w, p).ready == s.ready
      && (s.queues[p.deviceID].pending != [] ==> |Complete(s, w).ready| == |s.ready| + 1)
  {
  }
}
