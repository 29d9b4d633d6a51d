/** Process-wide configuration of the agent: the registry of tool servers and
    the fixed system instruction given to the language model. */
module Config {

  /** `MCP_SERVERS`: logical server key to base URL. */
  const McpServers: map<string, string> := map[
    "playwright" := "http://localhost:8931",
    "sequential_thinking" := "http://localhost:8081",
    "memory" := "http://localhost:8082",
    "task_orchestrator" := "http://localhost:8083"
  ]

  /** `SYSTEM_PROMPT`, a triple-quoted literal that starts and ends with a newline. */
  const SystemPrompt: string :=
    "\nYou are a helpful AI agent. Respond directly to simple queries. For complex tasks requiring tools, output in the format:\n"
    + "ACTION: tool_name({\"arg1\": \"value1\", \"arg2\": \"value2\"})\n"
    + "Available tools: goto, click, fill, query_selector, screenshot (Playwright); sequentialthinking (Sequential Thinking); add_observations, create_entities, etc. (Memory); create_task, etc. (Task Orchestrator).\n"
}
