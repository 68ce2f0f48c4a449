/**
 Resource accounting, apart from how rows are stored: each key has a footprint in the runtime, and the
 books are balanced when the footprints are disjoint and make up everything that has not been given up.
 */
module Books {
  import opened Runtime

  /** One main container, known by its name, service containers known by their ids, one network. */
  datatype Print = Print(main: string, name: string, services: set<string>, net: string)

  function Owned(p: Print): set<string> {
    {p.main} + p.services
  }

  function Refs(p: Print): set<string> {
    {p.name} + p.services
  }

  /** What a footprint records exists, is named as recorded, and has not been given up. */
  ghost predicate PrintOk(p: Print, e: Engine) {
    p.main in e.containers && e.containers[p.main] == p.name && p.main !in p.services &&
    p.services <= e.containers.Keys && Owned(p) !! e.abandoned &&
    p.net in e.networks && p.net !in e.abandonedNets
  }

  ghost predicate Separate(p: Print, q: Print) {
    Owned(p) !! Owned(q) && p.net != q.net
  }

  ghost predicate ContainerAccounted<K>(books: map<K, Print>, e: Engine, id: string) {
    id in e.abandoned || exists k :: k in books && id in Owned(books[k])
  }

  ghost predicate NetworkAccounted<K>(books: map<K, Print>, e: Engine, n: string) {
    n in e.abandonedNets || exists k :: k in books && n == books[k].net
  }

  ghost predicate PrintsOk<K>(books: map<K, Print>, e: Engine) {
    (forall k :: k in books ==> PrintOk(books[k], e)) &&
    (forall k, l :: k in books && l in books && k != l ==> Separate(books[k], books[l]))
  }

  ghost predicate Accounted<K>(books: map<K, Print>, e: Engine) {
    (forall id :: id in e.containers ==> ContainerAccounted(books, e, id)) &&
    (forall n :: n in e.networks ==> NetworkAccounted(books, e, n))
  }

  ghost predicate Balanced<K>(books: map<K, Print>, e: Engine) {
    EngineOk(e) && PrintsOk(books, e) && Accounted(books, e)
  }

  lemma PrintAt<K>(books: map<K, Print>, e: Engine, k: K)
    requires PrintsOk(books, e) && k in books
    ensures PrintOk(books[k], e)
  {
  }

  lemma SeparateAt<K>(books: map<K, Print>, e: Engine, k: K, l: K)
    requires PrintsOk(books, e) && k in books && l in books && k != l
    ensures Separate(books[k], books[l])
  {
  }

  lemma PrintsSubset<K>(books: map<K, Print>, e: Engine, k: K, e': Engine)
    requires PrintsOk(books, e)
    requires forall l :: l in books && l != k ==> PrintOk(books[l], e')
    ensures PrintsOk(books - {k}, e')
  {
  }

  ghost predicate Recorded<K>(books: map<K, Print>, id: string) {
    exists k :: k in books && id in Owned(books[k])
  }

  ghost predicate RecordedNet<K>(books: map<K, Print>, n: string) {
    exists k :: k in books && n == books[k].net
  }

  /** Balance in one line: what exists is what is recorded, apart from what has been given up. */
  lemma BalancedExactly<K>(books: map<K, Print>, e: Engine)
    requires Balanced(books, e)
    ensures forall id :: id in e.containers && id !in e.abandoned <==> Recorded(books, id)
    ensures forall n :: n in e.networks && n !in e.abandonedNets <==> RecordedNet(books, n)
  {
    hide EngineOk, PrintsOk;
    forall id | Recorded(books, id)
      ensures id in e.containers && id !in e.abandoned
    {
      var k :| k in books && id in Owned(books[k]);
      PrintAt(books, e, k);
    }
    forall n | RecordedNet(books, n)
      ensures n in e.networks && n !in e.abandonedNets
    {
      var k :| k in books && n == books[k].net;
      PrintAt(books, e, k);
    }
    forall id | id in e.containers && id !in e.abandoned
      ensures Recorded(books, id)
    {
      assert ContainerAccounted(books, e, id);
    }
    forall n | n in e.networks && n !in e.abandonedNets
      ensures RecordedNet(books, n)
    {
      assert NetworkAccounted(books, e, n);
    }
  }

  /** The references of a footprint find exactly its own containers. */
  lemma RefsFindOwned(p: Print, e: Engine)
    requires EngineOk(e) && PrintOk(p, e)
    ensures Matched(e, Refs(p)) == Owned(p)
  {
    forall id | id in e.containers
      ensures id in Matched(e, Refs(p)) <==> id in Owned(p)
    {
      assert MintedContainer(id, e.minted) && IsName(e.containers[id]) && IsName(p.name);
      assert forall s :: s in p.services ==> MintedContainer(s, e.minted);
    }
  }

  // --------------------------------------------------------------- tearing down

  lemma TearDown<K>(books: map<K, Print>, e: Engine, k: K, e': Engine)
    requires Balanced(books, e) && k in books
    requires Shrunk(e, Refs(books[k]), {books[k].net}, e')
    ensures Balanced(books - {k}, e')
    ensures e'.abandoned <= e.abandoned + Owned(books[k])
  {
    var p := books[k];
    RefsFindOwned(p, e);
    ShrunkOk(e, Refs(p), {p.net}, e');
    assert e'.abandoned <= e.abandoned + Owned(p);
    hide EngineOk, Matched, PrintOk, Separate, PrintsOk, Shrunk, Accounted;
    PrintAt(books, e, k);
    forall l | l in books && l != k
      ensures PrintOk(books[l], e')
    {
      PrintAt(books, e, l);
      SeparateAt(books, e, l, k);
      TearDownOther(books[l], p, e, e');
    }
    PrintsSubset(books, e, k, e');
    TearDownAccounted(books, e, k, e');
  }

  lemma TearDownOther(q: Print, p: Print, e: Engine, e': Engine)
    requires PrintOk(q, e) && Separate(q, p) && Matched(e, Refs(p)) == Owned(p)
    requires Shrunk(e, Refs(p), {p.net}, e')
    ensures PrintOk(q, e')
  {
    hide Matched, Refs;
    assert forall id :: id in Owned(q) ==> id in e.containers && id !in Owned(p);
    assert q.main in Owned(q);
  }

  lemma TearDownAccounted<K>(books: map<K, Print>, e: Engine, k: K, e': Engine)
    requires Accounted(books, e) && k in books && Matched(e, Refs(books[k])) == Owned(books[k])
    requires Shrunk(e, Refs(books[k]), {books[k].net}, e')
    ensures Accounted(books - {k}, e')
  {
    hide Matched, Refs;
    var rest := books - {k};
    forall id | id in e'.containers
      ensures ContainerAccounted(rest, e', id)
    {
      assert ContainerAccounted(books, e, id);
      if id !in e'.abandoned {
        var l :| l in books && id in Owned(books[l]);
        assert l in rest && id in Owned(rest[l]);
      }
    }
    forall n | n in e'.networks
      ensures NetworkAccounted(rest, e', n)
    {
      assert NetworkAccounted(books, e, n);
      if n !in e'.abandonedNets {
        var l :| l in books && n == books[l].net;
        assert l in rest && n == rest[l].net;
      }
    }
  }

  // ---------------------------------------------------------------- building up

  lemma OldPrintOk(p: Print, e: Engine, e': Engine, ids: set<string>, nets: set<string>)
    requires EngineOk(e) && PrintOk(p, e) && Building(e, e', ids, nets)
    ensures PrintOk(p, e') && Owned(p) !! ids && p.net !in nets
  {
    forall id | id in Owned(p)
      ensures id in e'.containers && id !in e'.abandoned && id !in ids
    {
      assert id in e.containers && MintedContainer(id, e.minted);
    }
    assert MintedNetwork(p.net, e.minted);
  }

  lemma GrowAccounted<K>(books: map<K, Print>, e: Engine, more: map<K, Print>, e': Engine, ids: set<string>, nets: set<string>)
    requires Accounted(books, e) && Building(e, e', ids, nets)
    requires forall k :: k in books ==> k in more && more[k] == books[k]
    requires forall id :: id in ids ==> ContainerAccounted(more, e', id)
    requires forall n :: n in nets ==> NetworkAccounted(more, e', n)
    ensures Accounted(more, e')
  {
    forall id | id in e'.containers
      ensures ContainerAccounted(more, e', id)
    {
      if id in e.containers {
        assert ContainerAccounted(books, e, id);
        if id !in e.abandoned {
          var k :| k in books && id in Owned(books[k]);
          assert k in more && id in Owned(more[k]);
        }
      }
    }
    forall n | n in e'.networks
      ensures NetworkAccounted(more, e', n)
    {
      if n in e.networks {
        assert NetworkAccounted(books, e, n);
        if n !in e.abandonedNets {
          var k :| k in books && n == books[k].net;
          assert k in more && n == more[k].net;
        }
      }
    }
  }

  lemma SetUp<K>(books: map<K, Print>, e: Engine, k: K, p: Print, e': Engine)
    requires Balanced(books, e) && k !in books && EngineOk(e')
    requires Building(e, e', Owned(p), {p.net}) && p.main !in p.services
    requires p.main in e'.containers && e'.containers[p.main] == p.name
    ensures Balanced(books[k := p], e')
  {
    hide EngineOk, PrintOk, Separate, Building, ContainerAccounted, NetworkAccounted;
    var more := books[k := p];
    forall l | l in books
      ensures PrintOk(books[l], e') && Separate(books[l], p) && Separate(p, books[l])
    {
      SetUpOther(books[l], p, e, e');
    }
    SetUpOne(p, e, e');
    forall id | id in Owned(p)
      ensures ContainerAccounted(more, e', id)
    {
      RecordedAt(more, k, e', id);
    }
    RecordedNetAt(more, k, e');
    GrowAccounted(books, e, more, e', Owned(p), {p.net});
  }

  lemma RecordedAt<K>(books: map<K, Print>, k: K, e: Engine, id: string)
    requires k in books && id in Owned(books[k])
    ensures ContainerAccounted(books, e, id)
  {
  }

  lemma RecordedNetAt<K>(books: map<K, Print>, k: K, e: Engine)
    requires k in books
    ensures NetworkAccounted(books, e, books[k].net)
  {
  }

  lemma SetUpOther(q: Print, p: Print, e: Engine, e': Engine)
    requires EngineOk(e) && PrintOk(q, e) && Building(e, e', Owned(p), {p.net})
    ensures PrintOk(q, e') && Separate(q, p) && Separate(p, q)
  {
    OldPrintOk(q, e, e', Owned(p), {p.net});
  }

  lemma SetUpOne(p: Print, e: Engine, e': Engine)
    requires Building(e, e', Owned(p), {p.net}) && p.main !in p.services
    requires p.main in e'.containers && e'.containers[p.main] == p.name
    ensures PrintOk(p, e')
  {
    assert p.main in Owned(p) && p.services <= Owned(p) && p.net in {p.net};
  }

  lemma Undo<K>(books: map<K, Print>, e: Engine, e': Engine)
    requires Balanced(books, e) && EngineOk(e') && Building(e, e', {}, {})
    ensures Balanced(books, e')
  {
    forall k | k in books
      ensures PrintOk(books[k], e')
    {
      OldPrintOk(books[k], e, e', {}, {});
    }
    hide EngineOk;
    GrowAccounted(books, e, books, e', {}, {});
  }
}
