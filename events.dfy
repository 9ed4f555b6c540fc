/** The records an agent keeps and the notifications the coordinator broadcasts to every
    connected observer. */
module Events {
  import opened JsonValue

  /** The `status` of an agent. */
  datatype Status = Idle | Working | NeedsAttention

  /** One entry of an agent's message log: `{"role": role, "content": content}`. */
  datatype Message = Message(role: string, content: Json)

  /** The `interrupt_type` of an interrupt. */
  datatype InterruptKind = Question | Plan

  /** An observer's connection. */
  type ClientId = nat

  /** The messages `broadcast` sends, one variant per `type` field. */
  datatype Notification =
      /** `{"agent_id", "type": "status", "status"}` */
    | StatusChanged(agentId: string, status: Status)
      /** `{"agent_id", "type": "usage", "usage"}` */
    | Usage(agentId: string, usage: Json)
      /** `{"agent_id", "type": "tool", "tool": {"name", "input"}}` */
    | ToolUse(agentId: string, name: Json, input: Json)
      /** `{"agent_id", "type": "output", "interrupt_type": null, "content", "raw"}` */
    | Output(agentId: string, content: Json, raw: string)
      /** `{"agent_id", "type": "interrupt", "interrupt_type", "content", "raw"}` */
    | Interrupt(agentId: string, kind: InterruptKind, content: Json, raw: string)
      /** `{"agent_id", "type": "output", "content": {"raw": raw}, "raw"}` for a line that
          is not JSON */
    | RawOutput(agentId: string, raw: string)
      /** `{"agent_id", "type": "init", "project", "status", "mode"}` */
    | Init(agentId: string, project: string, status: Status, mode: Json)
      /** `{"agent_id", "type": "deleted"}` */
    | Deleted(agentId: string)
      /** `{"type": "approval_request", "request_id", "agent_id", "tool_name", "tool_input",
          "command_display", "cwd", "pattern"}` */
    | ApprovalRequest(requestId: string, agentId: string, toolName: string, toolInput: Json,
                      commandDisplay: Json, cwd: Json, pattern: string)
}
