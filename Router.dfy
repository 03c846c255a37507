/** The voice agent's task router (agent/agent/agents/router.py): a fixed
    map from intent to the agent that handles it. */
module Router {
  const Agents: seq<string> := ["hardware_agent", "auth_agent", "default_agent"]

  /** `route_task`. */
  function RouteTask(intent: string, query: string): (agent: string)
    ensures agent == "hardware_agent" <==> intent == "hardware_issue"
    ensures agent == "auth_agent" <==> intent == "account_issue"
    ensures agent == "default_agent" <==> intent != "hardware_issue" && intent != "account_issue"
  {
    if intent == "hardware_issue" then "hardware_agent"
    else if intent == "account_issue" then "auth_agent"
    else "default_agent"
  }

  /** The query plays no part, and the agent is always one of three. */
  lemma RouteIgnoresQuery(intent: string, q1: string, q2: string)
    ensures RouteTask(intent, q1) == RouteTask(intent, q2)
    ensures RouteTask(intent, q1) in Agents
  {
  }
}
