/** The outbox of pending interest-subscription changes: its items, the
    filter that `unsubscribe` applies to it, and the subsequence order used
    to state that items are dispatched in submission order. */
module Outbox {

  /** The direction of a subscription change (InterestSubscriptionChange). */
  datatype Change = Subscribe | Unsubscribe

  /** One pending change for one interest (OutboxItem); immutable. */
  datatype OutboxItem = OutboxItem(interest: string, change: Change)

  /** The items of `items` whose interest is not `interest`, in their
      original order: what is left once every queued change for `interest`
      has been removed, whatever its direction. */
  function Without(items: seq<OutboxItem>, interest: string): (r: seq<OutboxItem>)
    ensures |r| <= |items|
  {
    if items == [] then []
    else if items[0].interest == interest then Without(items[1..], interest)
    else [items[0]] + Without(items[1..], interest)
  }

  /** Unsubscribe keeps exactly the items of other interests: every kept
      item was queued and has another interest, and every queued item of
      another interest is kept. */
  lemma {:induction false} WithoutMembers(items: seq<OutboxItem>, interest: string)
    ensures forall it :: it in Without(items, interest) <==> it in items && it.interest != interest
  {
    if items != [] {
      WithoutMembers(items[1..], interest);
      assert items == [items[0]] + items[1..];
    }
  }

  /** Removing an interest works item by item: it distributes over
      concatenation, so no item is moved past another. */
  lemma {:induction false} WithoutAppend(a: seq<OutboxItem>, b: seq<OutboxItem>, interest: string)
    ensures Without(a + b, interest) == Without(a, interest) + Without(b, interest)
  {
    if a != [] {
      assert (a + b)[1..] == a[1..] + b;
      WithoutAppend(a[1..], b, interest);
    } else {
      assert a + b == b;
    }
  }

  /** Removing the same interest twice removes nothing more. */
  lemma {:induction false} WithoutIdempotent(items: seq<OutboxItem>, interest: string)
    ensures Without(Without(items, interest), interest) == Without(items, interest)
  {
    if items != [] {
      WithoutIdempotent(items[1..], interest);
      if items[0].interest != interest {
        var rest := Without(items[1..], interest);
        assert ([items[0]] + rest)[1..] == rest;
      }
    }
  }

  /** An unsubscribe right after a subscribe of the same interest, with no
      flush in between, leaves the outbox as it was before the subscribe,
      minus any earlier items for that interest. */
  lemma UnsubscribeCancelsSubscribe(items: seq<OutboxItem>, interest: string)
    ensures Without(items + [OutboxItem(interest, Subscribe)], interest) == Without(items, interest)
  {
    var added := [OutboxItem(interest, Subscribe)];
    WithoutAppend(items, added, interest);
    assert added[1..] == [];
  }

  /** Two unsubscribes leave the same outbox in either order. */
  lemma {:induction false} WithoutCommutes(items: seq<OutboxItem>, x: string, y: string)
    ensures Without(Without(items, x), y) == Without(Without(items, y), x)
  {
    if items != [] {
      WithoutCommutes(items[1..], x, y);
      var head := items[0];
      var rx := Without(items[1..], x);
      var ry := Without(items[1..], y);
      assert ([head] + rx)[1..] == rx;
      assert ([head] + ry)[1..] == ry;
    }
  }

  /** `a` can be obtained from `b` by deleting elements: every element of
      `a` occurs in `b`, in the same relative order. */
  ghost predicate Subsequence<T>(a: seq<T>, b: seq<T>)
    decreases |b|
  {
    a == [] || (b != [] && ((a[0] == b[0] && Subsequence(a[1..], b[1..])) || Subsequence(a, b[1..])))
  }

  lemma {:induction false} SubsequenceTransitive<T>(a: seq<T>, b: seq<T>, c: seq<T>)
    requires Subsequence(a, b) && Subsequence(b, c)
    ensures Subsequence(a, c)
    decreases |c|
  {
    if a != [] {
      if b[0] == c[0] && Subsequence(b[1..], c[1..]) {
        if a[0] == b[0] && Subsequence(a[1..], b[1..]) {
          SubsequenceTransitive(a[1..], b[1..], c[1..]);
        } else {
          SubsequenceTransitive(a, b[1..], c[1..]);
        }
      } else {
        SubsequenceTransitive(a, b, c[1..]);
      }
    }
  }

  /** Appending the same element to both sides keeps the order. */
  lemma {:induction false} SubsequenceSnoc<T>(a: seq<T>, b: seq<T>, x: T)
    requires Subsequence(a, b)
    ensures Subsequence(a + [x], b + [x])
    decreases |b|
  {
    if b == [] {
      assert a == [];
      assert ([x] + [])[1..] == [];
    } else if a == [] {
      SubsequenceSnoc(a, b[1..], x);
      assert (b + [x])[1..] == b[1..] + [x];
    } else {
      assert (a + [x])[1..] == a[1..] + [x];
      assert (b + [x])[1..] == b[1..] + [x];
      if a[0] == b[0] && Subsequence(a[1..], b[1..]) {
        SubsequenceSnoc(a[1..], b[1..], x);
      } else {
        SubsequenceSnoc(a, b[1..], x);
      }
    }
  }

  /** Prefixing the same sequence to both sides keeps the order. */
  lemma {:induction false} SubsequencePrefix<T>(d: seq<T>, a: seq<T>, b: seq<T>)
    requires Subsequence(a, b)
    ensures Subsequence(d + a, d + b)
  {
    if d != [] {
      SubsequencePrefix(d[1..], a, b);
      assert (d + a)[1..] == d[1..] + a;
      assert (d + b)[1..] == d[1..] + b;
      assert (d + a)[0] == (d + b)[0];
    } else {
      assert d + a == a && d + b == b;
    }
  }

  /** A prefix of a subsequence is itself a subsequence. */
  lemma {:induction false} SubsequenceOfPrefix<T>(a: seq<T>, e: seq<T>, b: seq<T>)
    requires Subsequence(a + e, b)
    ensures Subsequence(a, b)
    decreases |b|
  {
    if a != [] {
      assert (a + e)[0] == a[0];
      assert (a + e)[1..] == a[1..] + e;
      if a[0] == b[0] && Subsequence(a[1..] + e, b[1..]) {
        SubsequenceOfPrefix(a[1..], e, b[1..]);
      } else {
        SubsequenceOfPrefix(a, e, b[1..]);
      }
    }
  }

  /** Every element of a subsequence occurs in the sequence it was taken
      from. */
  lemma {:induction false} SubsequenceMembers<T>(a: seq<T>, b: seq<T>)
    requires Subsequence(a, b)
    ensures forall x :: x in a ==> x in b
    decreases |b|
  {
    if a != [] {
      assert b == [b[0]] + b[1..];
      if a[0] == b[0] && Subsequence(a[1..], b[1..]) {
        SubsequenceMembers(a[1..], b[1..]);
        assert a == [a[0]] + a[1..];
      } else {
        SubsequenceMembers(a, b[1..]);
      }
    }
  }

  /** Unsubscribing preserves the relative order of what it keeps and adds
      nothing. */
  lemma {:induction false} WithoutSubsequence(items: seq<OutboxItem>, interest: string)
    ensures Subsequence(Without(items, interest), items)
  {
    if items != [] {
      WithoutSubsequence(items[1..], interest);
      var rest := Without(items[1..], interest);
      if items[0].interest != interest {
        assert ([items[0]] + rest)[1..] == rest;
      } else if rest != [] {
        assert Subsequence(rest, items[1..]);
      }
    }
  }

  /** One more item of the walk: the filtered prefix grows by the item
      exactly when its interest differs. */
  lemma WithoutStep(items: seq<OutboxItem>, k: nat, interest: string)
    requires k < |items|
    ensures Without(items[..k + 1], interest) ==
      Without(items[..k], interest) + if items[k].interest == interest then [] else [items[k]]
  {
    assert items[..k + 1] == items[..k] + [items[k]];
    WithoutAppend(items[..k], [items[k]], interest);
    assert [items[k]][1..] == [];
  }

  /** One step of the walk below, from `k` items of `outbox` examined. */
  lemma WalkStep(outbox: seq<OutboxItem>, interest: string, k: nat, items: seq<OutboxItem>, i: nat)
    requires k < |outbox|
    requires i == |Without(outbox[..k], interest)|
    requires items == Without(outbox[..k], interest) + outbox[k..]
    ensures i < |items| && items[i] == outbox[k]
    ensures var kept := Without(outbox[..k + 1], interest);
      if items[i].interest == interest then
        i == |kept| && items[..i] + items[i + 1..] == kept + outbox[k + 1..]
      else
        i + 1 == |kept| && items == kept + outbox[k + 1..]
  {
    var kept := Without(outbox[..k], interest);
    assert items[..i] == kept && items[i] == outbox[k] && items[i + 1..] == outbox[k + 1..];
    WithoutStep(outbox, k, interest);
  }

  /** The iterator walk of unsubscribe: every item whose interest matches
      is removed where it stands, the others are stepped over. */
  method RemoveInterest(outbox: seq<OutboxItem>, interest: string) returns (items: seq<OutboxItem>)
    ensures items == Without(outbox, interest)
  {
    items := outbox;
    var i := 0;
    ghost var k := 0;
    assert outbox[..0] == [];
    while i < |items|
      invariant 0 <= k <= |outbox|
      invariant i == |Without(outbox[..k], interest)|
      invariant items == Without(outbox[..k], interest) + outbox[k..]
      decreases |items| - i
    {
      WalkStep(outbox, interest, k, items, i);
      if items[i].interest == interest {
        items := items[..i] + items[i + 1..];
      } else {
        i := i + 1;
      }
      k := k + 1;
    }
    assert outbox[..k] == outbox;
  }
}
