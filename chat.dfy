/**
 * The `content` entry of a chat message dictionary as the termination
 * predicates of the AutoGen scripts see it: missing, present but `None`,
 * or a string.
 */
module ChatMessage {
  import opened Wrappers

  datatype Content = Absent | Null | Str(text: string)

  /** `msg.get('content')`: `None` when the key is missing or holds `None`. */
  function Get(c: Content): (r: Option<string>)
    ensures r.Some? <==> c.Str?
    ensures r.Some? ==> r.value == c.text
  {
    if c.Str? then Some(c.text) else None
  }

  /** `msg.get('content', default)`: the default only when the key is missing; a stored `None` stays `None`. */
  function GetOr(c: Content, default: string): (r: Option<string>)
    ensures r.None? <==> c.Null?
    ensures c.Absent? ==> r == Some(default)
    ensures c.Str? ==> r == Some(c.text)
  {
    match c
    case Absent => Some(default)
    case Null => None
    case Str(text) => Some(text)
  }
}
