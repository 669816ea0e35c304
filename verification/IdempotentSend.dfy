/** At most one message per sender and client sequence, whatever the dedup cache holds. */
module IdempotentSend {
  import opened MessageStore

  predicate HasPair(s: Store, m: nat, from: nat, sequence: nat) {
    m in s.messages && s.messages[m].from == from && s.messages[m].sequence == sequence
  }

  ghost predicate UniquePairs(s: Store) {
    forall a, b ::
      a in s.messages && b in s.messages && s.messages[a].sequence != 0
      && s.messages[a].from == s.messages[b].from && s.messages[a].sequence == s.messages[b].sequence
      ==> a == b
  }

  /** Every message has its own send event, and every event its message. */
  ghost predicate EventsInv(s: Store) {
    && (forall m :: m in s.messages ==> m in s.events && s.events[m] == m)
    && (forall e :: e in s.events ==> s.events[e] in s.messages)
  }

  ghost predicate RepliesInv(s: Store) {
    forall i :: 0 <= i < |s.replies| ==> HasPair(s, s.replies[i].messageId, s.replies[i].from, s.replies[i].sequence)
  }

  ghost predicate SendInv(s: Store) {
    UniquePairs(s) && EventsInv(s) && RepliesInv(s)
  }

  /** Messages and events are never removed; a message never changes sender, sequence or conversation, and
  stays recalled. */
  ghost predicate KeepsMessages(s: Store, s': Store) {
    && s.events.Keys <= s'.events.Keys
    && forall m :: m in s.messages ==>
         && HasPair(s', m, s.messages[m].from, s.messages[m].sequence) && s'.messages[m].conv == s.messages[m].conv
         && (s.messages[m].recalled ==> s'.messages[m].recalled)
  }

  lemma ActionFrame(s: Store, a: Action)
    requires Enabled(s, a)
    ensures KeepsMessages(s, Apply(s, a))
    ensures !a.CommitSend? ==> Apply(s, a).messages.Keys == s.messages.Keys
    ensures !a.CommitSend? && !a.CommitRecall? ==> Apply(s, a).events == s.events
    ensures !a.ReplyOk? ==> Apply(s, a).replies == s.replies
    ensures a.CommitSend? ==>
              Apply(s, a).messages == s.messages[a.id := a.message] && Apply(s, a).events == s.events[a.id := a.id]
    ensures a.CommitRecall? ==> Apply(s, a).events == s.events[a.eventId := a.id]
  {
  }

  lemma RepliesStay(s: Store, s': Store)
    requires RepliesInv(s) && KeepsMessages(s, s') && s'.replies == s.replies
    ensures RepliesInv(s')
  {
    forall i | 0 <= i < |s'.replies|
      ensures HasPair(s', s'.replies[i].messageId, s'.replies[i].from, s'.replies[i].sequence)
    {
      assert HasPair(s, s.replies[i].messageId, s.replies[i].from, s.replies[i].sequence);
    }
  }

  lemma ReplyKeeps(s: Store, a: Action)
    requires SendInv(s) && Enabled(s, a) && a.ReplyOk?
    ensures SendInv(Apply(s, a))
  {
  }

  lemma SendKeepsPairs(s: Store, s': Store, a: Action)
    requires SendInv(s) && Enabled(s, a) && a.CommitSend?
    requires s'.messages == s.messages[a.id := a.message] && s'.events == s.events[a.id := a.id]
    ensures UniquePairs(s') && EventsInv(s')
  {
  }

  lemma OthersKeepPairs(s: Store, s': Store, a: Action)
    requires SendInv(s) && Enabled(s, a) && !a.CommitSend?
    requires KeepsMessages(s, s') && s'.messages.Keys == s.messages.Keys
    requires s'.events == s.events || (a.CommitRecall? && s'.events == s.events[a.eventId := a.id])
    ensures UniquePairs(s') && EventsInv(s')
  {
    forall m | m in s.messages ensures HasPair(s', m, s.messages[m].from, s.messages[m].sequence) {}
  }

  lemma ActionKeepsSend(s: Store, a: Action)
    requires SendInv(s) && Enabled(s, a)
    ensures SendInv(Apply(s, a))
  {
    if a.ReplyOk? {
      ReplyKeeps(s, a);
    } else {
      var s' := Apply(s, a);
      ActionFrame(s, a);
      RepliesStay(s, s');
      if a.CommitSend? { SendKeepsPairs(s, s', a); } else { OthersKeepPairs(s, s', a); }
    }
  }

  lemma {:induction false} RunKeepsSend(s: Store, acts: seq<Action>)
    requires SendInv(s) && Runs(s, acts)
    ensures SendInv(After(s, acts)) && KeepsMessages(s, After(s, acts))
    decreases |acts|
  {
    if acts != [] {
      ActionFrame(s, acts[0]);
      ActionKeepsSend(s, acts[0]);
      RunKeepsSend(Apply(s, acts[0]), acts[1..]);
    }
  }

  // ---------------------------------------------------------------- whole runs

  predicate SendsPair(a: Action, from: nat, sequence: nat) {
    a.CommitSend? && a.message.from == from && a.message.sequence == sequence
  }

  /** Send transactions for the pair in a run: each inserts one message, one event and one round
  of unread increments. */
  function Sends(acts: seq<Action>, from: nat, sequence: nat): nat {
    if acts == [] then 0 else (if SendsPair(acts[0], from, sequence) then 1 else 0) + Sends(acts[1..], from, sequence)
  }

  lemma {:induction false} NoSecondSend(s: Store, acts: seq<Action>, m: nat, from: nat, sequence: nat)
    requires SendInv(s) && Runs(s, acts) && sequence != 0 && HasPair(s, m, from, sequence)
    ensures Sends(acts, from, sequence) == 0
    decreases |acts|
  {
    if acts != [] {
      ActionFrame(s, acts[0]);
      ActionKeepsSend(s, acts[0]);
      NoSecondSend(Apply(s, acts[0]), acts[1..], m, from, sequence);
    }
  }

  lemma {:induction false} AtMostOneSend(s: Store, acts: seq<Action>, from: nat, sequence: nat)
    requires SendInv(s) && Runs(s, acts) && sequence != 0
    ensures Sends(acts, from, sequence) <= 1
    decreases |acts|
  {
    if acts != [] {
      ActionFrame(s, acts[0]);
      ActionKeepsSend(s, acts[0]);
      if SendsPair(acts[0], from, sequence) {
        NoSecondSend(Apply(s, acts[0]), acts[1..], acts[0].id, from, sequence);
      } else {
        AtMostOneSend(Apply(s, acts[0]), acts[1..], from, sequence);
      }
    }
  }

  /** For any interleaving of sends and everything else, and any cache contents: at most one send
  transaction per pair, and all successful replies for the pair carry the same id. */
  lemma IdempotentSends(acts: seq<Action>, from: nat, sequence: nat)
    requires Runs(Empty, acts) && sequence != 0
    ensures Sends(acts, from, sequence) <= 1
    ensures var s := After(Empty, acts);
            forall i, j :: 0 <= i < |s.replies| && 0 <= j < |s.replies|
                           && s.replies[i].from == s.replies[j].from == from
                           && s.replies[i].sequence == s.replies[j].sequence == sequence
                           ==> s.replies[i].messageId == s.replies[j].messageId
  {
    AtMostOneSend(Empty, acts, from, sequence);
    RunKeepsSend(Empty, acts);
    var s := After(Empty, acts);
    forall i, j | 0 <= i < |s.replies| && 0 <= j < |s.replies|
                  && s.replies[i].from == s.replies[j].from == from
                  && s.replies[i].sequence == s.replies[j].sequence == sequence
      ensures s.replies[i].messageId == s.replies[j].messageId
    {
      assert HasPair(s, s.replies[i].messageId, from, sequence) && HasPair(s, s.replies[j].messageId, from, sequence);
    }
  }
}
