/** `determine_server`: the fixed classification of tool names into the keys of
    the server registry, with the task orchestrator as the fallback. */
module ToolRouter {
  import opened Config

  const BrowserTools: seq<string> := ["goto", "click", "fill", "query_selector", "screenshot"]

  const ThinkingTool: string := "sequentialthinking"

  const MemoryTools: seq<string> := [
    "add_observations", "create_entities", "create_relations", "delete_entities",
    "delete_observations", "delete_relations", "open_nodes", "read_graph", "search_nodes"
  ]

  /** Every tool name, known or not, is routed to exactly one registered server. */
  function DetermineServer(tool: string): (server: string)
    ensures server in McpServers
    ensures server == "playwright" <==> tool in BrowserTools
    ensures server == "sequential_thinking" <==> tool == ThinkingTool
    ensures server == "memory" <==> tool in MemoryTools
    ensures server == "task_orchestrator" <==>
      tool !in BrowserTools && tool != ThinkingTool && tool !in MemoryTools
  {
    if tool in BrowserTools then "playwright"
    else if tool == ThinkingTool then "sequential_thinking"
    else if tool in MemoryTools then "memory"
    else "task_orchestrator"
  }
}
