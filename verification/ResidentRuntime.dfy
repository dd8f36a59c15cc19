/** The resident runner around the agent object (packages/agent/subagent_factory.go:31-62,
    76-83): turns run on the object of module Agent, whose other threads may steer it
    whenever its lock is free. Recovery and the step budget are those of module Resident. */
module ResidentRuntime {
  import opened Transcript
  import E = Engine
  import A = Agent
  import Memory
  import Queue

  class Runtime {
    const agent: A.Agent
    var running: bool

    constructor (agent: A.Agent)
      ensures this.agent == agent && !running
    {
      this.agent, running := agent, false;
    }

    ghost predicate Ready()
      reads this, agent
    {
      agent.Valid() && E.Resting(agent.Now()) && agent.Now().q.inflight == []
    }

    /** `opening` has one row more than `journal`: the prompt, as a user's message. */
    ghost predicate Opens(journal: seq<Memory.Row>, opening: seq<Memory.Row>, prompt: Bytes) {
      |opening| == |journal| + 1 && journal <= opening && A.Requests(Last(opening), E.Prompt(prompt, []))
    }

    /** One call into the agent, up to `horizon` steps. */
    method Call(prompt: Bytes, horizon: nat) returns (result: Option<E.Result>)
      requires Ready()
      modifies agent
      ensures agent.Valid() && agent.Now().q.inflight == []
      ensures result.Some? ==> Ready() && agent.Now().run.pc == E.Returned(result.value)
      ensures prompt == [] ==> agent.opening == old(agent.opening)
      ensures prompt != [] ==> Opens(old(agent.journal), agent.opening, prompt)
      ensures 0 < agent.cfg.maxSteps < horizon ==> result.Some?
    {
      if prompt == [] {
        result := agent.Continue(horizon);
      } else {
        var refused;
        refused, result := agent.SendPrompt(E.Prompt(prompt, []), horizon);
      }
    }

    /** Nothing waits, and every acceptance was delivered or taken back. */
    ghost predicate AllAccounted()
      requires agent.Valid()
      reads this, agent
    {
      agent.queued == [] && forall stamp :: 0 <= stamp < agent.clock ==>
        stamp in Queue.Stamps(agent.Now().q.delivered) || stamp in agent.Now().q.taken
    }

    /** Closes the steer window unless the turn succeeded, its context lives and something
        is still queued. */
    method TryClose(result: E.Result) returns (closed: bool, err: Option<E.Result>)
      requires Ready() && running
      modifies this`running
      ensures err == if result == E.Finished then None else Some(result)
      ensures closed == (result != E.Finished || agent.cancelled || agent.queued == [])
      ensures running == !closed && Ready()
      ensures agent.queued == [] ==> AllAccounted()
    {
      err := if result == E.Finished then None else Some(result);
      closed := err.Some? || agent.cancelled || |agent.queued| == 0;
      Accounted();
      running := !closed;
    }

    /** Continues as long as steers turn up behind the last queue check, at most `rounds`
        times. */
    method Serve(first: Option<E.Result>, horizon: nat, rounds: nat) returns (finished: bool, err: Option<E.Result>)
      requires agent.Valid() && running
      requires first.Some? ==> Ready() && agent.Now().run.pc == E.Returned(first.value)
      modifies this, agent
      ensures agent.Valid() && agent.opening == old(agent.opening) && running == !finished
      ensures finished ==> Ready()
      ensures finished && err == None && !agent.cancelled ==> AllAccounted()
      ensures finished && err.Some? ==> agent.Now().run.pc == E.Returned(err.value)
    {
      var result := first;
      for k := 0 to rounds
        invariant agent.Valid() && running && agent.opening == old(agent.opening)
        invariant result.Some? ==> Ready() && agent.Now().run.pc == E.Returned(result.value)
      {
        if result == None {
          return false, None;
        }
        var closed;
        closed, err := TryClose(result.value);
        if closed {
          return true, err;
        }
        agent.Unlocked();
        result := Call([], horizon);
      }
      return false, None;
    }

    /** Runs a prompt, and what is steered meanwhile. */
    method Run(prompt: Bytes, horizon: nat, rounds: nat) returns (finished: bool, err: Option<E.Result>)
      requires Ready()
      modifies this, agent
      ensures agent.Valid() && running == !finished
      ensures finished ==> Ready()
      ensures finished && err == None && !agent.cancelled ==> AllAccounted()
      ensures finished && err.Some? ==> agent.Now().run.pc == E.Returned(err.value)
      ensures prompt != [] ==> agent.opening <= agent.journal && Opens(old(agent.journal), agent.opening, prompt)
    {
      running := true;
      var result := Call(prompt, horizon);
      finished, err := Serve(result, horizon, rounds);
    }

    /** With nothing queued, every acceptance was delivered or taken back. */
    lemma Accounted()
      requires Ready()
      ensures agent.queued == [] ==> AllAccounted()
    {
      if agent.queued == [] {
        forall stamp | 0 <= stamp < agent.clock
          ensures stamp in Queue.Stamps(agent.Now().q.delivered) || stamp in agent.Now().q.taken
        {
          agent.NothingQueuedIsLost(stamp);
        }
      }
    }

    /** Accepted only while a run is open; the caller learns which. */
    method Steer(text: Bytes) returns (ok: bool)
      requires agent.Valid()
      modifies agent`queued, agent`clock, agent`trail
      ensures agent.Valid() && A.OthersActed(old(agent.Now()), agent.Now())
      ensures ok == (running && Queue.Trim(text) != [])
      ensures ok ==> agent.queued == old(agent.queued) + [Queue.Entry(Queue.QueuedMessage(Queue.Trim(text), [], false), old(agent.clock))]
      ensures !ok ==> agent.queued == old(agent.queued)
    {
      if !running {
        return false;
      }
      ok := agent.QueuePrompt(Queue.QueuedMessage(text, [], false));
    }

    /** Gives back what was never delivered. */
    method DrainSteers() returns (out: seq<Bytes>)
      requires agent.Valid()
      modifies agent`queued, agent`trail
      ensures agent.Valid() && A.OthersActed(old(agent.Now()), agent.Now())
      ensures agent.queued == [] && |out| == |old(agent.queued)|
      ensures forall i :: 0 <= i < |out| ==> out[i] == old(agent.queued)[i].message.text
    {
      var drained := agent.DrainQueuedMessages();
      out := [];
      for i := 0 to |drained|
        invariant |out| == i && forall k :: 0 <= k < i ==> out[k] == drained[k].message.text
      {
        out := out + [drained[i].message.text];
      }
    }
  }
}
