/** The connection manager as an object: who holds which connection, and who may close or drop it. */
module McpManager {
  import opened McpConnect

  type Id = nat

  datatype Outcome = Disconnected | NotConnected | CloseError

  class Manager {
    var items: map<Id, ManagedClient>
    ghost var handles: set<ManagedClient>  // every managed client ever handed out
    ghost var built: set<LowClient>        // every low-level client ever built

    ghost predicate HandlesOk()
      reads this, handles, built
    {
      && (forall h | h in handles :: h.client != null && h.client in built && (h.closeDone ==> h.client.closed))
      && (forall g, h | g in handles && h in handles && g != h :: g.client != h.client)
    }

    ghost predicate ItemsOk()
      reads this
    {
      && (forall id | id in items :: items[id] in handles)
      && (forall i, j | i in items && j in items && i != j :: items[i] != items[j])
    }

    ghost predicate Holds(c: LowClient)
      reads this, items.Values
    {
      exists id :: id in items && items[id].client == c
    }

    // Whatever is open is the active client of an entry.
    ghost predicate NoLeak()
      reads this, items.Values, built
    {
      forall c | c in built && !c.closed :: Holds(c)
    }

    ghost predicate Valid()
      reads this, items.Values, handles, built
    {
      ItemsOk() && HandlesOk() && NoLeak()
    }

    function Entry(id: Id): ManagedClient
      requires id in items
      reads this
    {
      items[id]
    }

    constructor ()
      ensures Valid() && items == map[] && handles == {} && built == {}
    {
      items, handles, built := map[], {}, {};
    }

    // Closes the connection of an entry, whatever closing it answers, and deletes the entry.
    method Drop(id: Id)
      requires Valid() && id in items
      modifies this`items, Entry(id)`closeDone, Entry(id).client
      ensures Valid() && items == old(items) - {id} && handles == old(handles) && built == old(built)
      ensures forall c | c in built :: c.closed == (old(c.closed) || old(items[id].client) == c)
    {
      var mc := items[id];
      ghost var before := items;
      mc.Close();
      items := items - {id};
      forall c | c in built && !c.closed
        ensures Holds(c)
      {
        var k :| k in before && before[k].client == c;
        assert k in items && items[k].client == c;
      }
    }

    method Clear(id: Id)
      requires Valid()
      modifies this`items, handles`closeDone, built
      ensures Valid() && items == old(items) - {id} && handles == old(handles) && built == old(built)
      ensures forall c | c in built :: c.closed == (old(c.closed) || (id in old(items) && old(items[id].client) == c))
    {
      if id in items { Drop(id); }
    }

    // The entry that was there is closed and dropped even if the new connection then fails.
    method Connect(id: Id, service: Service, a: Answers) returns (r: Result)
      requires Valid()
      modifies this, handles`closeDone, built
      ensures Valid()
      ensures r == OverPrimary <==> PrimaryServes(service, a)
      ensures r == OverFallback <==> FallbackServes(service, a)
      ensures r.Refused? ==> items == old(items) - {id} && handles == old(handles)
      ensures !r.Refused? ==> id in items && fresh(items[id]) && items == old(items)[id := items[id]]
      ensures !r.Refused? ==> handles == old(handles) + {items[id]} && items[id].client != null && !items[id].client.closed
      ensures old(built) <= built
      ensures forall c | c in old(built) :: c.closed == (old(c.closed) || (id in old(items) && old(items[id].client) == c))
    {
      Clear(id);
      var mc;
      r, mc := NewManagedClient(service, a);
      Keep(id, mc, !r.Refused?);
    }

    // The last step of Connect.
    method Keep(id: Id, mc: ManagedClient, serves: bool)
      requires Valid() && id !in items && mc !in handles && mc.built !! built
      requires serves ==> !mc.closeDone && mc.client != null && mc.client in mc.built
                          && forall c | c in mc.built :: !c.closed <==> c == mc.client
      requires !serves ==> forall c | c in mc.built :: c.closed
      modifies this
      ensures Valid() && built == old(built) + mc.built
      ensures items == if serves then old(items)[id := mc] else old(items)
      ensures handles == if serves then old(handles) + {mc} else old(handles)
    {
      ghost var before := items;
      built := built + mc.built;
      if serves {
        items := items[id := mc];
        handles := handles + {mc};
        assert items[id] == mc;
      }
      forall c | c in built && !c.closed
        ensures Holds(c)
      {
        if c in mc.built {
          assert items[id].client == c;
        } else {
          var k :| k in before && before[k].client == c;
          assert items[k].client == c;
        }
      }
    }

    // If closing answers with an error, the entry stays, with its connection closed; a second try then succeeds.
    method Disconnect(id: Id, closeOk: bool) returns (r: Outcome)
      requires Valid()
      modifies this`items, handles`closeDone, built
      ensures Valid() && handles == old(handles) && built == old(built)
      ensures r == NotConnected <==> id !in old(items)
      ensures r == CloseError <==> id in old(items) && !old(items[id].closeDone) && !closeOk
      ensures items == if r == Disconnected then old(items) - {id} else old(items)
      ensures r == CloseError ==> items[id].closeDone
      ensures forall c | c in built :: c.closed == (old(c.closed) || (id in old(items) && old(items[id].client) == c))
    {
      if id !in items { return NotConnected; }
      var answered := items[id].closeDone || closeOk;
      if !answered {
        CloseOnly(id);
        return CloseError;
      }
      Drop(id);
      r := Disconnected;
    }

    method CloseOnly(id: Id)
      requires Valid() && id in items
      modifies Entry(id)`closeDone, Entry(id).client
      ensures Valid() && items[id].closeDone
      ensures forall c | c in built :: c.closed == (old(c.closed) || items[id].client == c)
    {
      items[id].Close();
      forall c | c in built && !c.closed
        ensures Holds(c)
      {
        var k :| k in items && items[k].client == c;
      }
    }

    // A call fails on a handle that it fetched at some time before. Only a lost session on the connection that is
    // still the entry's own closes and drops it: a newer connection is left alone.
    method HandleClientError(id: Id, handle: ManagedClient, sessionLost: bool)
      requires Valid() && handle in handles
      modifies this`items, handles`closeDone, built
      ensures Valid() && handles == old(handles) && built == old(built)
      ensures var own := sessionLost && id in old(items) && old(items[id]) == handle;
              && items == (if own then old(items) - {id} else old(items))
              && (forall c | c in built :: c.closed == (old(c.closed) || (own && c == old(handle.client))))
    {
      if sessionLost && id in items && items[id] == handle {
        Drop(id);
      }
    }
  }
}
