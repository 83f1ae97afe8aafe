/**
 * Live queries as the lists open them: a collection, equality filters and an
 * ordering. A snapshot is the sequence of matching documents in the order the
 * store delivers them; each list turns it into objects `{ id, ...data }`.
 */
module LiveQuery {
  import opened Values

  datatype Direction = Asc | Desc

  /** `where(field, '==', value)` */
  datatype Filter = Equals(field: Field, value: string)

  /** `orderBy(field, direction)` */
  datatype Order = OrderBy(field: Field, direction: Direction)

  datatype Query = Query(collection: string, filters: seq<Filter>, orders: seq<Order>)

  /** One document of a snapshot: its id and its stored data. */
  datatype SnapshotDoc = SnapshotDoc(id: string, data: Doc)

  /** `collection(db, name)` used as a query: every document, in the store's order. */
  function WholeCollection(name: string): Query {
    Query(name, [], [])
  }

  /**
   * `snapshot.docs.map(doc => ({ id: doc.id, ...doc.data() }))`: one object per
   * document, in snapshot order, each tagged with its document id unless its data
   * carries an `id` of its own.
   */
  function Materialize(snapshot: seq<SnapshotDoc>): (items: seq<Doc>)
    ensures |items| == |snapshot|
    ensures forall i | 0 <= i < |items| :: items[i].Keys == snapshot[i].data.Keys + {Id}
    ensures forall i | 0 <= i < |items| ::
      Lookup(items[i], Id) == (if Id in snapshot[i].data then snapshot[i].data[Id] else Str(snapshot[i].id))
    ensures forall i, f | 0 <= i < |items| && f in snapshot[i].data :: items[i][f] == snapshot[i].data[f]
    decreases |snapshot|
  {
    if snapshot == [] then []
    else [WithId(snapshot[0].id, snapshot[0].data)] + Materialize(snapshot[1..])
  }
}
