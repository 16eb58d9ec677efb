/** The host side: wakeup timers, the data radio's tuning and the loop that runs a node's actions. */
module HostApp {
  import opened Types
  import opened NodeModel
  import opened Schedule
  import opened SlotModel
  import opened SlotRuns
  import SlotNode

  /** A scheduled self-message. */
  datatype Wakeup = Wakeup(token: Token, due: nat)

  /** Every armed token has exactly one message in flight, and no other message is in flight. */
  ghost predicate WakeupsMatch(dues: map<Token, nat>, wakeups: map<Token, nat>, messages: map<nat, Wakeup>, next: nat) {
    && dues.Keys == wakeups.Keys
    && (forall t :: t in wakeups ==> wakeups[t] in messages && messages[wakeups[t]] == Wakeup(t, dues[t]))
    && forall m :: m in messages ==> m < next && messages[m].token in wakeups && wakeups[messages[m].token] == m
  }

  lemma WakeupArmed(dues: map<Token, nat>, wakeups: map<Token, nat>, messages: map<nat, Wakeup>, next: nat, t: Token, due: nat)
    requires WakeupsMatch(dues, wakeups, messages, next) && t !in wakeups
    ensures WakeupsMatch(dues[t := due], wakeups[t := next], messages[next := Wakeup(t, due)], next + 1)
  {
  }

  lemma WakeupDropped(dues: map<Token, nat>, wakeups: map<Token, nat>, messages: map<nat, Wakeup>, next: nat, t: Token)
    requires WakeupsMatch(dues, wakeups, messages, next) && t in wakeups
    ensures WakeupsMatch(dues - {t}, wakeups - {t}, messages - {wakeups[t]}, next)
  {
  }

  /** Never two messages for one token. */
  lemma OneMessagePerToken(dues: map<Token, nat>, wakeups: map<Token, nat>, messages: map<nat, Wakeup>, next: nat, a: nat, b: nat)
    requires WakeupsMatch(dues, wakeups, messages, next)
    requires a in messages && b in messages && messages[a].token == messages[b].token
    ensures a == b && messages[a].token in dues && messages[a].due == dues[messages[a].token]
  {
  }

  class SloraApp {
    const hasRadio: bool
    var wakeups: map<Token, nat>
    var messages: map<nat, Wakeup>
    var nextMessage: nat
    var curDataFreqHz: nat
    var curDataBwHz: nat
    var tuneCount: nat
    var bcastTxQueue: seq<Broadcast>
    var dataTxQueue: seq<(Sealed, nat, nat)>
    var delivered: seq<(Address, Payload)>

    ghost var dues: map<Token, nat>

    ghost predicate Valid()
      reads this
    {
      WakeupsMatch(dues, wakeups, messages, nextMessage)
    }

    ghost function Model(): Host
      reads this
    {
      Host(hasRadio, dues, curDataFreqHz, curDataBwHz, tuneCount, bcastTxQueue, dataTxQueue, delivered)
    }

    constructor (hasRadio: bool)
      ensures Valid() && Model() == Host(hasRadio, map[], 0, 0, 0, [], [], [])
    {
      this.hasRadio := hasRadio;
      wakeups, messages, nextMessage := map[], map[], 0;
      curDataFreqHz, curDataBwHz, tuneCount := 0, 0, 0;
      bcastTxQueue, dataTxQueue, delivered := [], [], [];
      dues := map[];
    }

    method CancelWakeup(token: Token)
      requires Valid()
      modifies this`wakeups, this`messages, this`dues
      ensures Valid() && dues == old(dues) - {token} && token !in wakeups
      ensures Model() == old(Model()).(dues := old(dues) - {token})
    {
      if token !in wakeups {
        assert dues == dues - {token};
        return;
      }
      WakeupDropped(dues, wakeups, messages, nextMessage, token);
      messages := messages - {wakeups[token]};
      wakeups := wakeups - {token};
      dues := dues - {token};
    }

    method ScheduleWakeup(token: Token, delay: nat, now: nat)
      requires Valid()
      modifies this
      ensures Valid() && Model() == old(Model()).(dues := old(dues)[token := now + delay])
    {
      hide WakeupsMatch;
      CancelWakeup(token);
      NewWakeup(token, now + delay);
      assert (old(dues) - {token})[token := now + delay] == old(dues)[token := now + delay];
    }

    method NewWakeup(token: Token, due: nat)
      requires Valid() && token !in wakeups
      modifies this
      ensures Valid() && Model() == old(Model()).(dues := old(dues)[token := due])
    {
      WakeupArmed(dues, wakeups, messages, nextMessage, token, due);
      hide WakeupsMatch;
      messages := messages[nextMessage := Wakeup(token, due)];
      wakeups := wakeups[token := nextMessage];
      nextMessage := nextMessage + 1;
      dues := dues[token := due];
    }

    method TuneDataRadio(freq: nat, bw: nat)
      requires Valid()
      modifies this`curDataFreqHz, this`curDataBwHz, this`tuneCount
      ensures Valid() && Model() == Tuned(old(Model()), freq, bw)
    {
      if !hasRadio { return; }
      if curDataFreqHz == freq && curDataBwHz == bw { return; }
      curDataFreqHz := freq;
      curDataBwHz := bw;
      tuneCount := tuneCount + 1;
    }

    method DeliverTxData(frame: Sealed, freq: nat, bw: nat)
      requires Valid()
      modifies this`curDataFreqHz, this`curDataBwHz, this`tuneCount, this`dataTxQueue
      ensures Valid() && Model() == Performed(old(Model()), TxData(frame, freq, bw), 0)
    {
      if curDataFreqHz != freq || curDataBwHz != bw {
        TuneDataRadio(freq, bw);
      }
      dataTxQueue := dataTxQueue + [(frame, freq, bw)];
    }

    method Perform(act: Action, now: nat)
      requires Valid()
      modifies this
      ensures Valid() && Model() == Performed(old(Model()), act, now)
    {
      match act
      case TxBroadcast(b) => bcastTxQueue := bcastTxQueue + [b];
      case TxData(f, freq, bw) => DeliverTxData(f, freq, bw);
      case TuneData(freq, bw) => TuneDataRadio(freq, bw);
      case Deliver(from, payload) => delivered := delivered + [(from, payload)];
      case Arm(token, delay) => ScheduleWakeup(token, delay, now);
      case Cancel(token) => CancelWakeup(token);
    }

    /** Pops and performs the node's actions until none is queued. */
    method DrainActions(node: SlotNode.Node, now: nat)
      requires Valid()
      modifies this, node`actions
      ensures Valid() && node.actions == [] && Model() == Drained(old(Model()), old(node.actions), now)
    {
      hide WakeupsMatch;
      ghost var queued := node.actions;
      ghost var done := 0;
      var more := true;
      while more
        invariant Valid() && done <= |queued| && node.actions == queued[done..] && (!more ==> done == |queued|)
        invariant Model() == Drained(old(Model()), queued[..done], now)
        decreases more, |node.actions|
      {
        var act;
        more, act := node.NextAction();
        if more {
          assert queued[..done + 1][..done] == queued[..done] && queued[..done + 1][done] == act;
          Perform(act, now);
          done := done + 1;
        }
      }
      assert queued[..done] == queued;
    }

    /** A wakeup message arrives: its entry goes before the node runs. */
    method TakeWakeup(message: nat) returns (token: Token)
      requires Valid() && message in messages
      modifies this`wakeups, this`messages, this`dues
      ensures Valid() && token == old(messages[message].token)
      ensures token in old(dues) && old(messages[message].due) == old(dues)[token]
      ensures Model() == old(Model()).(dues := old(dues) - {token})
    {
      token := messages[message].token;
      CancelWakeup(token);
    }

    /**
     A due wakeup, from its message to the last action it queues: together, host and node make the move that a wakeup is
     in the runs of stations.
     */
    method HandleWakeup(message: nat, node: SlotNode.Node, now: nat, order: seq<Address>, delay: nat)
      requires Valid() && message in messages && messages[message].due == now
      requires node.actions == [] && now + node.asnOffset >= 0 && Elements(order) == node.links.Keys
      modifies this, node
      ensures Valid() && node.actions == []
      ensures var token := old(messages[message].token);
              var s := Station(old(node.Model()), old(Model()), None, true);
              var woken := s.(host := s.host.(dues := s.host.dues - {token}));
              var ran := Ran(woken, if token == SlotToken then AfterWakeup(node.hash, s.node, now, order)
                                    else Acting(s.node.(ebPending := true), Arm(AnnounceToken, delay)), now);
              node.Model() == ran.node && Model() == ran.host
    {
      hide WakeupsMatch, AfterWakeup, Drained;
      var token := TakeWakeup(message);
      match token {
        case AnnounceToken => node.ScheduleNextAnnounce(delay);
        case SlotToken => node.HandleSlotWakeup(now, order);
      }
      DrainActions(node, now);
    }
  }
}
