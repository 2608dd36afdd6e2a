/**
 * The client endpoints (clients/api): a bulk upsert that keeps only the
 * entries passing validation, and a lookup by id.
 */
module ClientsApi {
  import opened Common
  import opened ClientModels
  import opened Database

  /** The entries of a batch that pass validation, in batch order. */
  function ValidClients(payload: seq<Client>): (r: seq<Client>)
    ensures |r| <= |payload|
    ensures forall c :: c in r <==> c in payload && ClientValid(c)
    decreases |payload|
  {
    if |payload| == 0 then []
    else
      var init := payload[..|payload| - 1];
      var last := payload[|payload| - 1];
      assert payload == init + [last];
      var kept := ValidClients(init);
      if ClientValid(last) then kept + [last] else kept
  }

  predicate DistinctClientIds(entries: seq<Client>) {
    forall i, j :: 0 <= i < j < |entries| ==> entries[i].id != entries[j].id
  }

  /**
   * `bulk_create(update_conflicts=True, update_fields=[login, age, location,
   * gender])`: a new id is inserted, an existing id has all four fields
   * replaced, which leaves it equal to the entry.
   */
  function PutClients(m: map<ClientId, Client>, entries: seq<Client>): (r: map<ClientId, Client>)
    ensures forall id :: id in r <==> id in m || exists c :: c in entries && c.id == id
    ensures forall id :: id in m && (forall c :: c in entries ==> c.id != id) ==> r[id] == m[id]
    decreases |entries|
  {
    if |entries| == 0 then m
    else
      var init := entries[..|entries| - 1];
      var last := entries[|entries| - 1];
      assert entries == init + [last];
      PutClients(m, init)[last.id := last]
  }

  /** With distinct ids, every entry of the batch is stored as given. */
  lemma {:induction false} PutClientsStores(m: map<ClientId, Client>, entries: seq<Client>)
    requires DistinctClientIds(entries)
    ensures forall c :: c in entries ==> PutClients(m, entries)[c.id] == c
    decreases |entries|
  {
    if |entries| > 0 {
      var init := entries[..|entries| - 1];
      var last := entries[|entries| - 1];
      assert entries == init + [last];
      PutClientsStores(m, init);
      forall c | c in init
        ensures c.id != last.id
      {
        var i :| 0 <= i < |init| && init[i] == c;
        assert entries[i] == c;
      }
    }
  }

  /** Every stored value of a touched id is one of the batch entries for it. */
  lemma {:induction false} PutClientFromBatch(m: map<ClientId, Client>, entries: seq<Client>, id: ClientId)
    requires exists c :: c in entries && c.id == id
    ensures PutClients(m, entries)[id] in entries && PutClients(m, entries)[id].id == id
    decreases |entries|
  {
    var init := entries[..|entries| - 1];
    var last := entries[|entries| - 1];
    assert entries == init + [last];
    if last.id != id {
      PutClientFromBatch(m, init, id);
    }
  }

  /** Upserting only ids that already exist leaves the number of clients unchanged. */
  lemma UpsertExistingKeepsCount(m: map<ClientId, Client>, entries: seq<Client>)
    requires forall c :: c in entries ==> c.id in m
    ensures |PutClients(m, entries)| == |m|
  {
    assert PutClients(m, entries).Keys == m.Keys;
  }

  /** An all-invalid batch leaves the clients as they were. */
  lemma InvalidBatchChangesNothing(m: map<ClientId, Client>, payload: seq<Client>)
    requires forall c :: c in payload ==> !ClientValid(c)
    ensures PutClients(m, ValidClients(payload)) == m
  {
  }

  /** `create_or_update_clients`: a loop keeps the valid entries, then they are upserted. */
  method CreateOrUpdateClients(db: Db, payload: seq<Client>) returns (created: seq<Client>)
    requires db.Valid()
    modifies db
    ensures created == ValidClients(payload)
    ensures db.Snapshot() == old(db.Snapshot()).(clients := PutClients(old(db.clients), created))
    ensures db.Valid()
  {
    var kept: seq<Client> := [];
    for i := 0 to |payload|
      invariant kept == ValidClients(payload[..i])
    {
      assert payload[..i + 1][..i] == payload[..i];
      if ClientValid(payload[i]) {
        kept := kept + [payload[i]];
      }
    }
    assert payload[..|payload|] == payload;
    var before := db.clients;
    db.clients := PutClients(db.clients, kept);
    created := kept;
    forall id | id in db.clients
      ensures db.clients[id].id == id && ClientValid(db.clients[id])
    {
      if id in before && forall c :: c in kept ==> c.id != id {
      } else {
        PutClientFromBatch(before, kept, id);
      }
    }
  }

  /** `get_client`: not found for an unknown id. */
  function GetClient(t: Tables, clientId: ClientId): (r: Result<Client>)
    ensures r.Err? <==> clientId !in t.clients
    ensures r.Err? ==> r.error == NotFound
  {
    if clientId in t.clients then Ok(t.clients[clientId]) else Err(NotFound)
  }

  /** In a consistent store a found client carries the requested id and is valid. */
  lemma GetClientFound(t: Tables, clientId: ClientId)
    requires Consistent(t) && clientId in t.clients
    ensures GetClient(t, clientId).Ok?
    ensures GetClient(t, clientId).value.id == clientId && ClientValid(GetClient(t, clientId).value)
  {
  }

  /** A valid entry of a batch with distinct ids reads back as given. */
  lemma UpsertThenGet(t: Tables, payload: seq<Client>, c: Client)
    requires DistinctClientIds(payload) && c in payload && ClientValid(c)
    ensures GetClient(t.(clients := PutClients(t.clients, ValidClients(payload))), c.id) == Ok(c)
  {
    var kept := ValidClients(payload);
    assert DistinctClientIds(kept) by {
      forall i, j | 0 <= i < j < |kept|
        ensures kept[i].id != kept[j].id
      {
        KeptInOrder(payload, i, j);
      }
    }
    PutClientsStores(t.clients, kept);
  }

  /** Filtering keeps the batch order: two kept entries come from two positions in that order. */
  lemma {:induction false} KeptInOrder(payload: seq<Client>, i: nat, j: nat)
    requires i < j < |ValidClients(payload)|
    ensures exists p, q :: 0 <= p < q < |payload| && payload[p] == ValidClients(payload)[i] && payload[q] == ValidClients(payload)[j]
    decreases |payload|
  {
    var init := payload[..|payload| - 1];
    var last := payload[|payload| - 1];
    var kept := ValidClients(init);
    if j < |kept| {
      KeptInOrder(init, i, j);
      var p, q :| 0 <= p < q < |init| && init[p] == kept[i] && init[q] == kept[j];
      assert payload[p] == init[p] && payload[q] == init[q];
    } else {
      assert ValidClients(payload)[i] == kept[i];
      assert kept[i] in init;
      var p :| 0 <= p < |init| && init[p] == kept[i];
      assert payload[p] == init[p];
      assert payload[|payload| - 1] == ValidClients(payload)[j];
    }
  }
}
