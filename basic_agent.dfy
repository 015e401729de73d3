/** The agent record shared by every agent role (models/agent_basic/basic_agent.rs). */
module AgentBasic {
  import opened Llm

  datatype AgentState = Discovery | Working | UnitTesting | Finished

  class BasicAgent {
    var objective: string
    var position: string
    var state: AgentState
    var memory: seq<Message>

    /** A fresh agent: the given descriptions, in Discovery, with nothing remembered. */
    constructor (objective: string, position: string)
      ensures this.objective == objective && this.position == position
      ensures state == Discovery
      ensures memory == []
    {
      this.objective := objective;
      this.position := position;
      state := Discovery;
      memory := [];
    }

    /** Overwrites the state and nothing else. */
    method UpdateState(newState: AgentState)
      modifies this
      ensures state == newState
      ensures objective == old(objective) && position == old(position) && memory == old(memory)
    {
      state := newState;
    }

    function GetObjective(): (r: string)
      reads this
      ensures r == objective
    {
      objective
    }

    function GetPosition(): (r: string)
      reads this
      ensures r == position
    {
      position
    }

    function GetState(): (r: AgentState)
      reads this
      ensures r == state
    {
      state
    }

    function GetMemory(): (r: seq<Message>)
      reads this
      ensures r == memory
    {
      memory
    }
  }
}
