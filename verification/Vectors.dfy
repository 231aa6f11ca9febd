/** Vector operations and the entries they maintain; the effect of the vector projector. */
module Vectors {
  import opened Text
  import opened Types
  import opened Normalize

  /** The bit pattern of a float32. */
  type Bits = x: int | 0 <= x < 0x1_0000_0000

  datatype OperationType = Upsert | Delete | UnknownOperation

  datatype VectorOperation = VectorOperation(
    kind: OperationType, nodeID: string, nodeType: string, hierarchyScope: map<string, string>,
    embeddingModel: string, dimensions: int, vector: seq<Bits>, sourceSeq: nat, attributes: map<string, string>)

  /** An `exactVectorEntry`; its cached magnitude is a function of the vector. */
  datatype VectorEntry = VectorEntry(
    nodeID: string, nodeType: string, hierarchyScope: map<string, string>, embeddingModel: string,
    dimensions: int, vector: seq<Bits>, sourceSeq: nat, attributes: map<string, string>)

  type Entries = map<string, VectorEntry>

  function CleanOperation(op: VectorOperation, fallback: nat): VectorOperation {
    op.(nodeID := Trim(op.nodeID), nodeType := Trim(op.nodeType), embeddingModel := Trim(op.embeddingModel),
        hierarchyScope := NormalizeMap(op.hierarchyScope), attributes := NormalizeMap(op.attributes),
        sourceSeq := if op.sourceSeq == 0 then fallback else op.sourceSeq)
  }

  function NormalizeOperation(op: VectorOperation, fallback: nat): Result<VectorOperation> {
    var n := CleanOperation(op, fallback);
    match n.kind
    case Upsert =>
      if n.nodeID == "" then Err(Invalid("vector upsert node id is required"))
      else if n.nodeType == "" then Err(Invalid("vector upsert node type is required"))
      else if n.embeddingModel == "" then Err(Invalid("vector upsert embedding model is required"))
      else if n.vector == [] then Err(Invalid("vector upsert embedding vector is required"))
      else
        var d := if n.dimensions == 0 then |n.vector| else n.dimensions;
        if d != |n.vector| then Err(Invalid("vector upsert dimensions mismatch"))
        else if n.sourceSeq == 0 then Err(Invalid("vector operation source sequence is required"))
        else Ok(n.(dimensions := d))
    case Delete =>
      if n.nodeID == "" then Err(Invalid("vector delete node id is required"))
      else if n.dimensions < 0 then Err(Invalid("vector delete dimensions must be non-negative"))
      else if n.sourceSeq == 0 then Err(Invalid("vector operation source sequence is required"))
      else Ok(n.(vector := []))
    case UnknownOperation => Err(Unsupported)
  }

  lemma CleanOperationFixes(op: VectorOperation, fallback: nat, again: nat)
    ensures var n := CleanOperation(op, fallback);
      n.sourceSeq != 0 ==> CleanOperation(n, again) == n
  {
    hide Trim, NormalizeMap;
    TrimFixes(Trim(op.nodeID));
    TrimFixes(Trim(op.nodeType));
    TrimFixes(Trim(op.embeddingModel));
    NormalizeMapFixes(op.hierarchyScope);
    NormalizeMapFixes(op.attributes);
  }

  /** The projector normalizes, and so does the index: the second time changes nothing. */
  lemma NormalizeOperationFixes(op: VectorOperation, fallback: nat, again: nat)
    requires NormalizeOperation(op, fallback).Ok?
    ensures var n := NormalizeOperation(op, fallback).value;
      NormalizeOperation(n, again) == Ok(n) && n.sourceSeq != 0 && n.nodeID != ""
  {
    hide Trim, NormalizeMap;
    CleanOperationFixes(op, fallback, again);
    var c, n := CleanOperation(op, fallback), NormalizeOperation(op, fallback).value;
    assert CleanOperation(n, again) == CleanOperation(c, again).(dimensions := n.dimensions, vector := n.vector);
  }

  /** What an operation needs before anything is trimmed. */
  predicate AcceptableOperation(op: VectorOperation, fallback: nat) {
    && (op.sourceSeq != 0 || fallback != 0)
    && !AllSpace(op.nodeID)
    && match op.kind
       case Upsert =>
         && !AllSpace(op.nodeType) && !AllSpace(op.embeddingModel) && op.vector != []
         && (op.dimensions == 0 || op.dimensions == |op.vector|)
       case Delete => op.dimensions >= 0
       case UnknownOperation => false
  }

  /** Exactly the acceptable operations are normalized; an upsert then states the length of its
      vector, a delete carries none, and both carry a source sequence. */
  lemma NormalizeOperationAcceptsIff(op: VectorOperation, fallback: nat)
    ensures NormalizeOperation(op, fallback).Ok? <==> AcceptableOperation(op, fallback)
    ensures NormalizeOperation(op, fallback).Ok? ==>
      var n := NormalizeOperation(op, fallback).value;
      && n.kind == op.kind && n.sourceSeq == (if op.sourceSeq != 0 then op.sourceSeq else fallback)
      && (n.kind == Upsert ==> n.vector == op.vector && n.dimensions == |op.vector|)
      && (n.kind == Delete ==> n.vector == [])
  {
    hide Trim, AllSpace, NormalizeMap;
    TrimEmptiesBlanks(op.nodeID);
    TrimEmptiesBlanks(op.nodeType);
    TrimEmptiesBlanks(op.embeddingModel);
  }

  function EntryOf(op: VectorOperation): VectorEntry {
    VectorEntry(op.nodeID, op.nodeType, op.hierarchyScope, op.embeddingModel, op.dimensions, op.vector,
                op.sourceSeq, op.attributes)
  }

  /** The effect of a normalized operation on the entries. */
  function Effect(entries: Entries, op: VectorOperation): Entries {
    if op.kind == Upsert then entries[op.nodeID := EntryOf(op)] else entries - {op.nodeID}
  }

  /** `ApplyVectorOperation`, as far as the entries are concerned. */
  function Operate(entries: Entries, op: VectorOperation): Result<Entries> {
    match NormalizeOperation(op, op.sourceSeq)
    case Err(e) => Err(e)
    case Ok(n) => Ok(Effect(entries, n))
  }

  type Mapper = Event -> Result<Option<VectorOperation>>

  /** `vectorProjector.Project`. */
  function Project(mapper: Mapper, entries: Entries, event: Event): Result<Entries> {
    match mapper(event)
    case Err(e) => Err(e)
    case Ok(None) => Ok(entries)
    case Ok(Some(op)) =>
      match NormalizeOperation(op, event.seqNo)
      case Err(e) => Err(e)
      case Ok(n) => Operate(entries, n)
  }

  /** Delivering an event a second time changes nothing. */
  lemma RedeliveryChangesNothing(mapper: Mapper, entries: Entries, event: Event)
    ensures var once := Project(mapper, entries, event);
      once.Ok? ==> Project(mapper, once.value, event) == once
  {
    hide NormalizeOperation;
    match mapper(event) {
      case Ok(Some(op)) =>
        if NormalizeOperation(op, event.seqNo).Ok? {
          var n := NormalizeOperation(op, event.seqNo).value;
          NormalizeOperationFixes(op, event.seqNo, n.sourceSeq);
          assert Effect(Effect(entries, n), n) == Effect(entries, n);
        }
      case _ =>
    }
  }

  /** Whether an event can be projected does not depend on the entries. */
  lemma FailureIgnoresEntries(mapper: Mapper, a: Entries, b: Entries, event: Event)
    ensures Project(mapper, a, event).Ok? <==> Project(mapper, b, event).Ok?
  {
    hide NormalizeOperation;
  }

  /** What projecting an event leaves, field by field: a delete removes the node and an upsert
      stores what the operation says, stamped with the event's number unless it has one of its
      own; nothing else changes. */
  lemma ProjectedEffect(mapper: Mapper, entries: Entries, event: Event)
    requires Project(mapper, entries, event).Ok?
    ensures var after := Project(mapper, entries, event).value;
      match mapper(event)
      case Err(_) => false
      case Ok(None) => after == entries
      case Ok(Some(op)) =>
        match op.kind
        case Delete => after == map id | id in entries && id != Trim(op.nodeID) :: entries[id]
        case Upsert =>
          && Trim(op.nodeID) in after
          && after == entries[Trim(op.nodeID) := VectorEntry(
               Trim(op.nodeID), Trim(op.nodeType), NormalizeMap(op.hierarchyScope), Trim(op.embeddingModel),
               |op.vector|, op.vector, if op.sourceSeq == 0 then event.seqNo else op.sourceSeq,
               NormalizeMap(op.attributes))]
        case UnknownOperation => false
  {
    hide Trim, NormalizeMap, NormalizeOperation;
    match mapper(event) {
      case Ok(Some(op)) =>
        NormalizedOperation(op, event.seqNo);
        NormalizeOperationFixes(op, event.seqNo, NormalizeOperation(op, event.seqNo).value.sourceSeq);
      case _ =>
    }
  }

  /** What normalizing makes of the fields of an accepted operation. */
  lemma NormalizedOperation(op: VectorOperation, fallback: nat)
    requires NormalizeOperation(op, fallback).Ok?
    ensures var n := NormalizeOperation(op, fallback).value;
      && n.kind == op.kind && n.kind != UnknownOperation && n.nodeID == Trim(op.nodeID)
      && (op.kind == Upsert ==> n == VectorOperation(
            Upsert, Trim(op.nodeID), Trim(op.nodeType), NormalizeMap(op.hierarchyScope), Trim(op.embeddingModel),
            |op.vector|, op.vector, if op.sourceSeq == 0 then fallback else op.sourceSeq, NormalizeMap(op.attributes)))
      && n.sourceSeq == if op.sourceSeq == 0 then fallback else op.sourceSeq
  {
    hide Trim, NormalizeMap;
  }
}
