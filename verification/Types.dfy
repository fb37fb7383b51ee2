/** Shared vocabulary: tool inputs, tools, permission decisions (types/tool.go, types/message.go). */
module Types {

  datatype Option<+T> = None | Some(value: T)

  type Error = string

  /** Tool inputs are JSON objects. Only string members are ever inspected by the modelled code. */
  datatype Json = Str(s: string) | OtherJson(tag: int)

  /** A Go map may be nil, and a nil map is not the same as an empty one. */
  datatype Input = NilInput | Object(fields: map<string, Json>)

  /** The two-value type assertion input[key].(string): the empty string when it does not apply. */
  function StringField(input: Input, key: string): string {
    match input
    case NilInput => ""
    case Object(fields) => if key in fields && fields[key].Str? then fields[key].s else ""
  }

  /** v is the string under the key, and the empty string when nothing or no string is there. */
  predicate StringUnder(input: Input, key: string, v: string) {
    if input.Object? && key in input.fields && input.fields[key].Str? then input.fields[key] == Str(v) else v == ""
  }

  /** What the modelled code asks of a tool before calling it. */
  datatype Tool = Tool(name: string, readOnly: Input -> bool, concurrencySafe: Input -> bool, builtInEdit: bool)

  datatype Behavior = Allow | Deny | Ask | OtherBehavior(text: string)

  datatype Decision = Decision(behavior: Behavior, updated: Input, reason: string, interrupt: bool)

  datatype Mode = UnsetMode | DefaultMode | AcceptEdits | BypassPermissions | PlanMode | DontAsk | OtherMode(text: string)

  /** The two results of a permission function. */
  datatype Reply = Reply(decision: Option<Decision>, err: Option<Error>)

  type PermissionFn = (Tool, Input) -> Reply

  function DenyWith(reason: string): Decision {
    Decision(Deny, NilInput, reason, false)
  }

  /** The input that a decision leaves in force. */
  function Effective(input: Input, d: Decision): Input {
    if d.updated != NilInput then d.updated else input
  }
}
