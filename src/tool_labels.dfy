/** The rule shared by the capacity and the size tables: a tool carries each
    label name at most once, names compared without regard to case. */
module ToolLabels {
  import opened Common
  import opened Store

  /** How one of the two services words its errors. */
  datatype Wording = Wording(
    entity: string,
    relationMissing: string,
    duplicateName: string,
    createPrefix: string,
    findPrefix: string,
    updatePrefix: string,
    deletePrefix: string)

  const ToolMissing: HttpError := HttpError(BadRequest, "Tool not found")

  function Taken(w: Wording): HttpError {
    HttpError(BadRequest, w.entity + " already exists for this tool")
  }

  function Missing(w: Wording): HttpError {
    HttpError(NotFound, w.entity + " not found")
  }

  /** The store errors `create` reports as they are. */
  function CreateHandled(w: Wording): map<StoreCode, HttpError> {
    map[P2003 := HttpError(BadRequest, w.relationMissing), P2002 := HttpError(BadRequest, w.duplicateName)]
  }

  function DeleteHandled(w: Wording): map<StoreCode, HttpError> {
    map[P2025 := Missing(w)]
  }

  /** Label `k` is on tool `toolId` and, when a name is given, carries it up to
      case. An absent name matches every label of the tool. */
  predicate Matches(labels: map<Id, ToolLabel>, fold: string -> string, k: Id, toolId: Id, name: Option<string>)
    requires k in labels
  {
    labels[k].toolId == toolId && (name.None? || fold(labels[k].name) == fold(name.value))
  }

  /** Some label other than `except` matches. */
  predicate Clash(labels: map<Id, ToolLabel>, fold: string -> string, toolId: Id, name: Option<string>, except: Option<Id>) {
    exists k :: k in labels && Some(k) != except && Matches(labels, fold, k, toolId, name)
  }

  /** No tool carries two labels whose names fold alike. */
  predicate UniqueLabels(labels: map<Id, ToolLabel>, fold: string -> string) {
    forall a, b ::
      (a in labels && b in labels && labels[a].toolId == labels[b].toolId
       && fold(labels[a].name) == fold(labels[b].name)) ==> a == b
  }

  /** The checks of `create`: the tool exists and carries no label of that name. */
  function CreateGate(w: Wording, tools: map<Id, Tool>, labels: map<Id, ToolLabel>, fold: string -> string, l: ToolLabel)
    : (r: Option<HttpError>)
    ensures r.None? <==> l.toolId in tools && !Clash(labels, fold, l.toolId, Some(l.name), None)
  {
    if l.toolId !in tools then Some(ToolMissing)
    else if Clash(labels, fold, l.toolId, Some(l.name), None) then Some(Taken(w))
    else None
  }

  /** The fields an update may carry. */
  datatype LabelPatch = LabelPatch(toolId: Option<Id>, name: Option<string>)

  function Patched(l: ToolLabel, p: LabelPatch): (r: ToolLabel)
    ensures p.toolId.Some? ==> r.toolId == p.toolId.value
    ensures p.toolId.None? ==> r.toolId == l.toolId
    ensures p.name.Some? ==> r.name == p.name.value
    ensures p.name.None? ==> r.name == l.name
  {
    ToolLabel(p.toolId.GetOr(l.toolId), p.name.GetOr(l.name))
  }

  /** The checks of `update`: the label exists, the target tool is given and
      exists, and no other label of that tool matches the given name. */
  function UpdateGate(w: Wording, tools: map<Id, Tool>, labels: map<Id, ToolLabel>, fold: string -> string, id: Id, p: LabelPatch)
    : (r: Option<Thrown>)
    ensures r.None? <==> id in labels && p.toolId.Some? && p.toolId.value in tools && !Clash(labels, fold, p.toolId.value, p.name, Some(id))
  {
    if id !in labels then Some(Raised(Missing(w)))
    else if p.toolId.None? then Some(ScriptError(UndefinedKey))
    else if p.toolId.value !in tools then Some(Raised(ToolMissing))
    else if Clash(labels, fold, p.toolId.value, p.name, Some(id)) then Some(Raised(Taken(w)))
    else None
  }

  /** Names are compared up to case: a name that folds like a label already on
      the tool is refused, and any name is free on a tool without labels. */
  lemma CaseInsensitiveClash(w: Wording, tools: map<Id, Tool>, labels: map<Id, ToolLabel>, fold: string -> string, k: Id, name: string)
    requires k in labels && labels[k].toolId in tools && fold(labels[k].name) == fold(name)
    ensures CreateGate(w, tools, labels, fold, ToolLabel(labels[k].toolId, name)) == Some(Taken(w))
  {
    assert Matches(labels, fold, k, labels[k].toolId, Some(name));
  }

  /** The same name on another tool is no clash. */
  lemma OtherToolFree(labels: map<Id, ToolLabel>, fold: string -> string, toolId: Id, name: string)
    requires forall k :: k in labels ==> labels[k].toolId != toolId
    ensures !Clash(labels, fold, toolId, Some(name), None)
  {
  }

  /** Keeping its own name and tool passes an update's uniqueness check. */
  lemma KeepOwnName(labels: map<Id, ToolLabel>, fold: string -> string, id: Id)
    requires UniqueLabels(labels, fold) && id in labels
    ensures !Clash(labels, fold, labels[id].toolId, Some(labels[id].name), Some(id))
  {
  }

  /** An update without a name clashes with any other label of the tool. */
  lemma NamelessUpdateClashes(labels: map<Id, ToolLabel>, fold: string -> string, id: Id, other: Id)
    requires other in labels && other != id
    ensures Clash(labels, fold, labels[other].toolId, None, Some(id))
  {
    assert Matches(labels, fold, other, labels[other].toolId, None);
  }

  /** A label that passed the create gate keeps the table unique. */
  lemma CreateKeepsUnique(labels: map<Id, ToolLabel>, fold: string -> string, id: Id, l: ToolLabel)
    requires UniqueLabels(labels, fold) && id !in labels && !Clash(labels, fold, l.toolId, Some(l.name), None)
    ensures UniqueLabels(labels[id := l], fold)
  {
    var t := labels[id := l];
    forall a, b | a in t && b in t && t[a].toolId == t[b].toolId && fold(t[a].name) == fold(t[b].name)
      ensures a == b
    {
      if a == id && b != id {
        assert Matches(labels, fold, b, l.toolId, Some(l.name));
      } else if b == id && a != id {
        assert Matches(labels, fold, a, l.toolId, Some(l.name));
      }
    }
  }

  /** A patch that passed the update gate keeps the table unique. */
  lemma UpdateKeepsUnique(labels: map<Id, ToolLabel>, fold: string -> string, id: Id, p: LabelPatch)
    requires UniqueLabels(labels, fold) && id in labels && p.toolId.Some?
    requires !Clash(labels, fold, p.toolId.value, p.name, Some(id))
    ensures UniqueLabels(labels[id := Patched(labels[id], p)], fold)
  {
    var l := Patched(labels[id], p);
    var t := labels[id := l];
    forall a, b | a in t && b in t && t[a].toolId == t[b].toolId && fold(t[a].name) == fold(t[b].name)
      ensures a == b
    {
      if a == id && b != id {
        assert Matches(labels, fold, b, p.toolId.value, p.name);
      }
    }
  }

  /** The labels whose names fold like `name`, on any tool. */
  predicate NamedLike(labels: map<Id, ToolLabel>, fold: string -> string, name: string, k: Id) {
    k in labels && fold(labels[k].name) == fold(name)
  }
}
