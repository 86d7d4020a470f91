/** The attach-once guard of `$.fn.accelero`: for each matched element, a new
    plugin instance is constructed and stored under the element's
    `plugin_accelero` data key only when that key is not yet set. */
module Registry {

  /** The elements of `elems`, in order, for which a plugin is constructed when
      `attached` already carry one. */
  function Created<E>(attached: set<E>, elems: seq<E>): seq<E>
    decreases |elems|
  {
    if elems == [] then []
    else if elems[0] in attached then Created(attached, elems[1..])
    else [elems[0]] + Created(attached + {elems[0]}, elems[1..])
  }

  /** Each element gets at most one plugin, only elements not yet attached get
      one, and every element of `elems` ends up attached. */
  lemma {:induction false} CreatedExactlyOnce<E>(attached: set<E>, elems: seq<E>)
    ensures forall e :: e in Created(attached, elems) <==> e in elems && e !in attached
    ensures forall i, j :: 0 <= i < j < |Created(attached, elems)| ==> Created(attached, elems)[i] != Created(attached, elems)[j]
    decreases |elems|
  {
    if elems != [] {
      if elems[0] in attached {
        CreatedExactlyOnce(attached, elems[1..]);
        assert forall e :: e in elems <==> e == elems[0] || e in elems[1..];
      } else {
        var rest := Created(attached + {elems[0]}, elems[1..]);
        CreatedExactlyOnce(attached + {elems[0]}, elems[1..]);
        assert forall e :: e in elems <==> e == elems[0] || e in elems[1..];
        assert Created(attached, elems) == [elems[0]] + rest;
        forall i, j | 0 <= i < j < |Created(attached, elems)|
          ensures Created(attached, elems)[i] != Created(attached, elems)[j]
        {
          if i > 0 {
            assert Created(attached, elems)[i] == rest[i - 1];
          } else {
            assert rest[j - 1] in rest;
          }
        }
      }
    }
  }

  /** Attaching again to elements that already carry a plugin constructs nothing. */
  lemma {:induction false} ReattachCreatesNothing<E>(attached: set<E>, elems: seq<E>)
    requires forall e :: e in elems ==> e in attached
    ensures Created(attached, elems) == []
    decreases |elems|
  {
    if elems != [] {
      assert elems[0] in attached;
      ReattachCreatesNothing(attached, elems[1..]);
    }
  }

  /** The page-wide `$.data` store, as far as the guard sees it. */
  class PluginStore<E(==)> {
    /** Elements whose `plugin_accelero` data key is set. */
    var attached: set<E>
    /** Every plugin construction so far, in order. */
    var constructed: seq<E>

    constructor ()
      ensures attached == {} && constructed == []
    {
      attached := {};
      constructed := [];
    }

    /** `$(elems).accelero(options)`. */
    method Attach(elems: seq<E>)
      modifies this
      ensures attached == old(attached) + set e | e in elems
      ensures constructed == old(constructed) + Created(old(attached), elems)
    {
      var i := 0;
      while i < |elems|
        invariant 0 <= i <= |elems|
        invariant attached == old(attached) + set e | e in elems[..i]
        invariant constructed + Created(attached, elems[i..]) == old(constructed) + Created(old(attached), elems)
      {
        assert elems[i..][1..] == elems[i + 1..];
        if elems[i] !in attached {
          attached := attached + {elems[i]};
          constructed := constructed + [elems[i]];
        }
        assert elems[..i + 1] == elems[..i] + [elems[i]];
        i := i + 1;
      }
      assert elems[..i] == elems;
    }
  }

  /** Attaching the same elements twice leaves the store as one attachment did. */
  method AttachTwice<E(==)>(store: PluginStore<E>, elems: seq<E>)
    modifies store
    ensures store.attached == old(store.attached) + set e | e in elems
    ensures store.constructed == old(store.constructed) + Created(old(store.attached), elems)
  {
    store.Attach(elems);
    ReattachCreatesNothing(store.attached, elems);
    store.Attach(elems);
  }
}
