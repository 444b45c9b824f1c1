/**
 Executing one node of the graph: dispatch on its kind, the successors it
 chooses, and the context keys its outputs are stored under
 (backend/src/engine/executor.rs:385-473, 490-556, 614-719).
 */
module NodeExecution {
  import opened Wrappers
  import opened JsonValues
  import opened Graphs
  import Text

  type Context = map<string, Value>

  datatype HandlerResult =
    | Outputs(outputs: Value, selectedNext: Option<string>)
    | HandlerError(message: string)

  datatype DelayPlan =
    | NoWait(outputs: Value)
    | Wait(outputs: Value, resumeAt: int)
    | DelayError(message: string)

  /** The code behind the nodes, taken as functions; `lower` is Unicode lower-casing. */
  datatype Handlers = Handlers(
    delay: Node -> DelayPlan,
    handler: (Node, Context) -> HandlerResult,
    lower: string -> string)

  // ---- Executing one node ----

  predicate IsDelay(kind: string) {
    kind == "delay" || kind == "logicDelay" || kind == "wait"
  }

  predicate HasHandler(kind: string) {
    || kind == "formatter" || kind == "logicformatter" || kind == "transform"
    || kind == "trigger"
    || kind == "condition"
    || "action" <= kind
  }

  /** The handle a condition's Boolean result selects. */
  function DesiredHandle(outputs: Value): Option<string> {
    match outputs.GetBool("result")
    case Some(true) => Some("cond-true")
    case Some(false) => Some("cond-false")
    case None => None
  }

  function TargetsByHandle(es: seq<Edge>, handle: string): seq<string> {
    if es == [] then []
    else (if es[0].sourceHandle == Some(handle) then [es[0].target] else []) + TargetsByHandle(es[1..], handle)
  }

  /** The successors of a node that produced `outputs`. */
  function ResolveNext(g: Graph, id: string, kind: string, outputs: Value, selected: Option<string>): seq<string> {
    if selected.Some? && selected.value in g.nodes then [selected.value]
    else if kind == "condition" && DesiredHandle(outputs).Some?
    then TargetsByHandle(g.Outgoing(id), DesiredHandle(outputs).value)
    else g.Targets(id)
  }

  function StopOnError(node: Node): bool {
    match node.data.GetBool("stopOnError") case Some(b) => b case None => true
  }

  /** What executing a node leads to, with the successors it chooses. */
  datatype Outcome =
    | Advanced(outputs: Value, next: seq<string>)
    | Suspended(outputs: Value, resumeAt: int, next: seq<string>)
    | Tolerated(message: string, next: seq<string>)
    | Fatal(message: string)
  {
    function Next(): seq<string> {
      if Fatal? then [] else next
    }
    predicate GoesOn() {
      Advanced? || Tolerated?
    }
  }

  function OnError(g: Graph, id: string, node: Node, message: string): Outcome {
    if StopOnError(node) || node.kind != "action" then Fatal(message) else Tolerated(message, g.Targets(id))
  }

  function Execute(h: Handlers, g: Graph, id: string, node: Node, ctx: Context): Outcome {
    if IsDelay(node.kind) then
      match h.delay(node)
      case NoWait(outputs) => Advanced(outputs, ResolveNext(g, id, node.kind, outputs, None))
      case Wait(outputs, at) => Suspended(outputs, at, ResolveNext(g, id, node.kind, outputs, None))
      case DelayError(message) => OnError(g, id, node, message)
    else if HasHandler(node.kind) then
      match h.handler(node, ctx)
      case Outputs(outputs, selected) => Advanced(outputs, ResolveNext(g, id, node.kind, outputs, selected))
      case HandlerError(message) => OnError(g, id, node, message)
    else
      var outputs := Object(map["skipped" := Bool(true)]);
      Advanced(outputs, ResolveNext(g, id, node.kind, outputs, None))
  }

  /** The primary context key of a node: its trimmed label, or its id when it has none. */
  function PrimaryKey(node: Node): string {
    match node.data.GetString("label")
    case Some(name) => if Text.Trim(name) != "" then Text.Trim(name) else node.id
    case None => node.id
  }

  /** The lower-case alias, when there is a label and lower-casing changes it. */
  function AliasKey(h: Handlers, node: Node): Option<string> {
    match node.data.GetString("label")
    case Some(name) =>
      var t := Text.Trim(name);
      if t != "" && h.lower(t) != t then Some(h.lower(t)) else None
    case None => None
  }

  function Record(h: Handlers, node: Node, ctx: Context, outputs: Value): Context {
    var c := ctx[PrimaryKey(node) := outputs];
    match AliasKey(h, node) case Some(alias) => c[alias := outputs] case None => c
  }

  // ---- Where outputs go ----

  /** Outputs can be read back under the label and under its lower-case form; every other key is untouched. */
  lemma OutputsReadableByLabel(h: Handlers, node: Node, ctx: Context, outputs: Value, name: string, key: string)
    requires node.data.GetString("label") == Some(name) && Text.Trim(name) != ""
    ensures
      var c := Record(h, node, ctx, outputs);
      var t := Text.Trim(name);
      && t in c && c[t] == outputs
      && h.lower(t) in c && c[h.lower(t)] == outputs
      && (key != t && key != h.lower(t) ==> (key in c <==> key in ctx) && (key in c ==> c[key] == ctx[key]))
  {
  }
}
