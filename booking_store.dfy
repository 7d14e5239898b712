/**
 * The store of the single-stream booking demo: one list of chat messages
 * (assistant or user) and one list of timeline steps, with no threads and no
 * plan. Ids come from a counter; the clock is a field.
 */
module BookingStore {
  import opened Wrappers
  import opened Js
  import opened Timeline

  datatype Role = Agent | User

  datatype Message = Message(id: Id, role: Role, text: string, ts: int)

  /** An id the counter has already handed out (literal ids never collide with issued ones). */
  predicate IssuedBelow(id: Id, n: nat) {
    id.Issued? ==> id.n < n
  }

  /** The text of the last message with the user's role, if there is one. */
  function LastUserText(ms: seq<Message>): Option<string>
  {
    if ms == [] then None
    else if ms[|ms| - 1].role == User then Some(ms[|ms| - 1].text)
    else LastUserText(ms[..|ms| - 1])
  }

  /** None exactly when no message is the user's; otherwise the text of a user message with none after it. */
  lemma {:induction false} LastUserTextMeans(ms: seq<Message>)
    ensures LastUserText(ms).None? <==> forall k :: 0 <= k < |ms| ==> ms[k].role != User
    ensures LastUserText(ms).Some? ==>
              exists k :: 0 <= k < |ms| && ms[k].role == User && ms[k].text == LastUserText(ms).value
                          && forall j :: k < j < |ms| ==> ms[j].role != User
  {
    if ms != [] && ms[|ms| - 1].role != User {
      var init := ms[..|ms| - 1];
      LastUserTextMeans(init);
      if LastUserText(init).Some? {
        var k :| 0 <= k < |init| && init[k].role == User && init[k].text == LastUserText(init).value
                 && forall j :: k < j < |init| ==> init[j].role != User;
        assert ms[k] == init[k];
        assert forall j :: k < j < |ms| ==> ms[j].role != User by {
          forall j | k < j < |ms| ensures ms[j].role != User {
            if j < |init| { assert ms[j] == init[j]; }
          }
        }
      } else {
        forall k | 0 <= k < |ms| ensures ms[k].role != User {
          if k < |init| { assert ms[k] == init[k]; }
        }
      }
    } else if ms != [] {
      assert ms[|ms| - 1].role == User;
    }
  }

  /** A message appended after the last user message leaves the answer unchanged unless it is the user's. */
  lemma {:induction false} LastUserTextSnoc(ms: seq<Message>, m: Message)
    ensures LastUserText(ms + [m]) == if m.role == User then Some(m.text) else LastUserText(ms)
  {
    assert (ms + [m])[..|ms|] == ms;
  }

  class Store {
    var messages: seq<Message>
    var steps: seq<Step>
    var now: int
    var nextId: nat

    /** Every step id was issued by the counter (or is literal), and every step carries a timestamp. */
    ghost predicate Valid()
      reads this
    {
      && (forall j :: 0 <= j < |steps| ==> IssuedBelow(steps[j].id, nextId))
      && AllStamped(steps)
    }

    /** The initial state: no messages and no steps. */
    constructor(now: int)
      ensures Valid()
      ensures messages == [] && steps == [] && this.now == now && nextId == 0
    {
      messages := [];
      steps := [];
      this.now := now;
      nextId := 0;
    }

    /** Time passes between events. */
    method Advance(t: int)
      requires Valid() && t >= now
      modifies this
      ensures Valid()
      ensures now == t
      ensures messages == old(messages) && steps == old(steps) && nextId == old(nextId)
    {
      now := t;
    }

    method Say(role: Role, text: string) returns (m: Message)
      requires Valid()
      modifies this
      ensures Valid()
      ensures m == Message(Issued("m", old(nextId)), role, text, now)
      ensures messages == old(messages) + [m]
      ensures nextId == old(nextId) + 1
      ensures steps == old(steps) && now == old(now)
    {
      m := Message(Issued("m", nextId), role, text, now);
      nextId := nextId + 1;
      messages := messages + [m];
    }

    /** `agentSay(text)`: one assistant message with the text verbatim at the end, returned; nothing else changes. */
    method AgentSay(text: string) returns (m: Message)
      requires Valid()
      modifies this
      ensures Valid()
      ensures m == Message(Issued("m", old(nextId)), Agent, text, now)
      ensures messages == old(messages) + [m]
      ensures LastUserText(messages) == LastUserText(old(messages))
      ensures nextId == old(nextId) + 1
      ensures steps == old(steps) && now == old(now)
    {
      m := Say(Agent, text);
      LastUserTextSnoc(old(messages), m);
    }

    /** `userSay(text)`: the same with the user's role; it becomes the last user request. */
    method UserSay(text: string) returns (m: Message)
      requires Valid()
      modifies this
      ensures Valid()
      ensures m == Message(Issued("m", old(nextId)), User, text, now)
      ensures messages == old(messages) + [m]
      ensures LastUserText(messages) == Some(text)
      ensures nextId == old(nextId) + 1
      ensures steps == old(steps) && now == old(now)
    {
      m := Say(User, text);
      LastUserTextSnoc(old(messages), m);
    }

    /** `getLastUserRequest`: scan backwards for the last user message. */
    method GetLastUserRequest() returns (r: Option<string>)
      ensures r == LastUserText(messages)
    {
      var i := |messages| - 1;
      assert messages[..i + 1] == messages;
      while i >= 0
        invariant -1 <= i < |messages|
        invariant LastUserText(messages) == LastUserText(messages[..i + 1])
      {
        assert messages[..i + 1] == messages[..i] + [messages[i]];
        LastUserTextSnoc(messages[..i], messages[i]);
        if messages[i].role == User {
          return Some(messages[i].text);
        }
        i := i - 1;
      }
      assert messages[..0] == [];
      return None;
    }

    /** `upsertStep`: merge into the entry with the same id, or append with `ts` defaulted to now. */
    method UpsertStep(step: Step)
      requires Valid() && IssuedBelow(step.id, nextId)
      modifies this
      ensures Valid()
      ensures steps == Upserted(old(steps), step, now)
      ensures messages == old(messages) && now == old(now) && nextId == old(nextId)
    {
      var idx := FindStepIndex(steps, step.id);
      if idx >= 0 {
        steps := steps[idx := Merge(steps[idx], step)];
      } else {
        steps := steps + [Stamped(step, now)];
      }
      UpsertKeepsStamped(old(steps), step, now);
    }

    /** `completeStep`: mark the first step with `id` completed; no-op when there is none. */
    method CompleteStep(id: Id)
      requires Valid()
      modifies this
      ensures Valid()
      ensures steps == MarkCompleted(old(steps), id)
      ensures messages == old(messages) && now == old(now) && nextId == old(nextId)
    {
      var idx := FindStepIndex(steps, id);
      if idx >= 0 {
        steps := steps[idx := steps[idx].(status := Completed)];
      }
    }

    /** `createStepId(kind)`: a fresh id that begins with the kind's name and '_'. */
    method CreateStepId(kind: Kind) returns (id: Id)
      requires Valid()
      modifies this
      ensures Valid()
      ensures id == Issued(KindName(kind), old(nextId)) && nextId == old(nextId) + 1
      ensures StartsWith(IdText(id), KindName(kind) + "_")
      ensures forall j :: 0 <= j < |steps| ==> steps[j].id != id
      ensures messages == old(messages) && steps == old(steps) && now == old(now)
    {
      id := Issued(KindName(kind), nextId);
      nextId := nextId + 1;
    }
  }
}
