/** The cart-item table as a sequence of rows in insertion order, and the
    queries and deletions the cart service issues against it. */
module CartLines {
  import opened CartTypes

  /** Two rows clash when they share an id, or share (cartId, productId):
      both are unique keys of the cart-item table. */
  predicate Clash(a: CartItem, b: CartItem) {
    a.id == b.id || (a.cartId == b.cartId && a.productId == b.productId)
  }

  /** No two rows of the table clash. */
  ghost predicate UniqueRows(s: seq<CartItem>)
    decreases |s|
  {
    s == [] || ((forall t :: t in s[1..] ==> !Clash(s[0], t)) && UniqueRows(s[1..]))
  }

  function ProductIds(s: seq<CartItem>): set<nat> {
    set t | t in s :: t.productId
  }

  /** No product appears on two lines. */
  ghost predicate DistinctProducts(s: seq<CartItem>)
    decreases |s|
  {
    s == [] || (s[0].productId !in ProductIds(s[1..]) && DistinctProducts(s[1..]))
  }

  /** The lines of one cart, in table order (`where: { cartId }`). */
  function Lines(s: seq<CartItem>, cartId: nat): (r: seq<CartItem>)
    ensures forall t :: t in r <==> t in s && t.cartId == cartId
    ensures |r| <= |s|
    decreases |s|
  {
    if s == [] then []
    else if s[0].cartId == cartId then [s[0]] + Lines(s[1..], cartId)
    else Lines(s[1..], cartId)
  }

  /** `cartItem.deleteMany({ where: { cartId } })`. */
  function WithoutCart(s: seq<CartItem>, cartId: nat): (r: seq<CartItem>)
    ensures forall t :: t in r <==> t in s && t.cartId != cartId
    decreases |s|
  {
    if s == [] then []
    else if s[0].cartId == cartId then WithoutCart(s[1..], cartId)
    else [s[0]] + WithoutCart(s[1..], cartId)
  }

  /** `cartItem.delete({ where: { id } })`. */
  function DropItem(s: seq<CartItem>, itemId: nat): (r: seq<CartItem>)
    ensures forall t :: t in r <==> t in s && t.id != itemId
    decreases |s|
  {
    if s == [] then []
    else if s[0].id == itemId then DropItem(s[1..], itemId)
    else [s[0]] + DropItem(s[1..], itemId)
  }

  /** `cartItem.findUnique({ where: { cartId_productId } })`: the index of the line. */
  function FindLine(s: seq<CartItem>, cartId: nat, productId: nat): (r: Option<nat>)
    ensures r.Some? ==> r.value < |s| && s[r.value].cartId == cartId && s[r.value].productId == productId
    ensures r.None? ==> forall t :: t in s ==> !(t.cartId == cartId && t.productId == productId)
    decreases |s|
  {
    if s == [] then None
    else if s[0].cartId == cartId && s[0].productId == productId then Some(0)
    else match FindLine(s[1..], cartId, productId)
      case None => None
      case Some(k) => Some(k + 1)
  }

  /** `cartItem.findFirst({ where: { id, cartId } })`: the index of the row. */
  function FindItem(s: seq<CartItem>, itemId: nat, cartId: nat): (r: Option<nat>)
    ensures r.Some? ==> r.value < |s| && s[r.value].id == itemId && s[r.value].cartId == cartId
    ensures r.None? ==> forall t :: t in s ==> !(t.id == itemId && t.cartId == cartId)
    decreases |s|
  {
    if s == [] then None
    else if s[0].id == itemId && s[0].cartId == cartId then Some(0)
    else match FindItem(s[1..], itemId, cartId)
      case None => None
      case Some(k) => Some(k + 1)
  }

  // ---------------------------------------------------------------------
  // Per-cart views under the table updates the service performs

  lemma {:induction false} LinesConcat(a: seq<CartItem>, b: seq<CartItem>, cartId: nat)
    ensures Lines(a + b, cartId) == Lines(a, cartId) + Lines(b, cartId)
    decreases |a|
  {
    if a == [] {
      assert a + b == b;
    } else {
      assert (a + b)[0] == a[0] && (a + b)[1..] == a[1..] + b;
      LinesConcat(a[1..], b, cartId);
    }
  }

  /** A cart no row refers to has no lines. */
  lemma {:induction false} LinesOfAbsentCart(s: seq<CartItem>, cartId: nat)
    requires forall t :: t in s ==> t.cartId != cartId
    ensures Lines(s, cartId) == []
    decreases |s|
  {
    if s != [] {
      assert s[0] in s;
      LinesOfAbsentCart(s[1..], cartId);
    }
  }

  /** Appending a row changes only the view of the row's own cart, by one line at the end. */
  lemma LinesAppend(s: seq<CartItem>, t: CartItem, cartId: nat)
    ensures Lines(s + [t], cartId) == Lines(s, cartId) + (if t.cartId == cartId then [t] else [])
  {
    LinesConcat(s, [t], cartId);
    assert [t][1..] == [];
  }

  /** Rewriting row k without moving it to another cart leaves every other cart's view unchanged. */
  lemma {:induction false} LinesUpdateOther(s: seq<CartItem>, k: nat, t: CartItem, cartId: nat)
    requires k < |s| && t.cartId == s[k].cartId && cartId != t.cartId
    ensures Lines(s[k := t], cartId) == Lines(s, cartId)
    decreases |s|
  {
    if k > 0 {
      assert s[k := t][1..] == s[1..][k - 1 := t];
      LinesUpdateOther(s[1..], k - 1, t, cartId);
    }
  }

  /** Clearing one cart empties its view and leaves every other cart's view unchanged. */
  lemma {:induction false} LinesWithoutCart(s: seq<CartItem>, cleared: nat, cartId: nat)
    ensures Lines(WithoutCart(s, cleared), cartId) == if cartId == cleared then [] else Lines(s, cartId)
    decreases |s|
  {
    if s != [] {
      LinesWithoutCart(s[1..], cleared, cartId);
    }
  }

  /** Deleting a row by id is invisible in any cart that holds no row with that id. */
  lemma {:induction false} LinesDropItemOther(s: seq<CartItem>, itemId: nat, cartId: nat)
    requires forall t :: t in s && t.id == itemId ==> t.cartId != cartId
    ensures Lines(DropItem(s, itemId), cartId) == Lines(s, cartId)
    decreases |s|
  {
    if s != [] {
      LinesDropItemOther(s[1..], itemId, cartId);
    }
  }

  /** Deleting a row by id removes exactly that line from its cart's view. */
  lemma {:induction false} LinesDropItem(s: seq<CartItem>, itemId: nat, cartId: nat)
    ensures Lines(DropItem(s, itemId), cartId) == DropItem(Lines(s, cartId), itemId)
    decreases |s|
  {
    if s != [] {
      LinesDropItem(s[1..], itemId, cartId);
    }
  }

  // ---------------------------------------------------------------------
  // The unique keys survive every table update

  lemma {:induction false} UniqueRowsAppend(s: seq<CartItem>, t: CartItem)
    requires UniqueRows(s)
    requires forall u :: u in s ==> !Clash(u, t)
    ensures UniqueRows(s + [t])
    decreases |s|
  {
    if s != [] {
      assert (s + [t])[1..] == s[1..] + [t];
      UniqueRowsAppend(s[1..], t);
    } else {
      assert [t][1..] == [];
    }
  }

  /** Rewriting a row without touching its keys keeps the keys unique. */
  lemma {:induction false} UniqueRowsUpdate(s: seq<CartItem>, k: nat, t: CartItem)
    requires UniqueRows(s) && k < |s|
    requires t.id == s[k].id && t.cartId == s[k].cartId && t.productId == s[k].productId
    ensures UniqueRows(s[k := t])
    decreases |s|
  {
    if k > 0 {
      assert s[k := t][1..] == s[1..][k - 1 := t];
      UniqueRowsUpdate(s[1..], k - 1, t);
      forall u | u in s[k := t][1..] ensures !Clash(s[0], u) {
        if u == t {
          assert s[1..][k - 1] in s[1..];
        } else {
          var j :| 0 <= j < |s[1..][k - 1 := t]| && s[1..][k - 1 := t][j] == u;
          assert u == s[1..][j];
        }
      }
    } else {
      assert s[k := t][1..] == s[1..];
    }
  }

  lemma {:induction false} UniqueRowsWithoutCart(s: seq<CartItem>, cartId: nat)
    requires UniqueRows(s)
    ensures UniqueRows(WithoutCart(s, cartId))
    decreases |s|
  {
    if s != [] {
      UniqueRowsWithoutCart(s[1..], cartId);
    }
  }

  lemma {:induction false} UniqueRowsDropItem(s: seq<CartItem>, itemId: nat)
    requires UniqueRows(s)
    ensures UniqueRows(DropItem(s, itemId))
    decreases |s|
  {
    if s != [] {
      UniqueRowsDropItem(s[1..], itemId);
    }
  }

  /** With unique keys, a cart never holds two lines for one product. */
  lemma {:induction false} LinesDistinctProducts(s: seq<CartItem>, cartId: nat)
    requires UniqueRows(s)
    ensures DistinctProducts(Lines(s, cartId))
    decreases |s|
  {
    if s != [] {
      LinesDistinctProducts(s[1..], cartId);
      if s[0].cartId == cartId {
        forall u | u in Lines(s[1..], cartId) ensures u.productId != s[0].productId {
          assert !Clash(s[0], u);
        }
      }
    }
  }

  /** With unique keys, deleting a row by id from a cart's view removes one line. */
  lemma {:induction false} UniqueRowsDropOne(s: seq<CartItem>, k: nat)
    requires UniqueRows(s) && k < |s|
    ensures |DropItem(s, s[k].id)| == |s| - 1
    ensures s[k] !in DropItem(s, s[k].id)
    decreases |s|
  {
    if k == 0 {
      DropAbsent(s[1..], s[0].id);
    } else {
      UniqueRowsDropOne(s[1..], k - 1);
      assert s[1..][k - 1] in s[1..];
    }
  }

  /** Deleting an id no row carries leaves the table as it was. */
  lemma {:induction false} DropAbsent(s: seq<CartItem>, itemId: nat)
    requires forall t :: t in s ==> t.id != itemId
    ensures DropItem(s, itemId) == s
    decreases |s|
  {
    if s != [] {
      DropAbsent(s[1..], itemId);
    }
  }
  /** Clearing a cart twice is clearing it once. */
  lemma {:induction false} WithoutCartIdempotent(s: seq<CartItem>, cartId: nat)
    ensures WithoutCart(WithoutCart(s, cartId), cartId) == WithoutCart(s, cartId)
    decreases |s|
  {
    if s != [] {
      WithoutCartIdempotent(s[1..], cartId);
      if s[0].cartId != cartId {
        assert WithoutCart(s, cartId)[1..] == WithoutCart(s[1..], cartId);
      }
    }
  }

  /** UniqueRows stated by positions: rows at two different positions never clash. */
  lemma {:induction false} UniqueRowsAt(s: seq<CartItem>, i: nat, j: nat)
    requires UniqueRows(s) && i < j < |s|
    ensures !Clash(s[i], s[j])
    decreases |s|
  {
    assert s[j] == s[1..][j - 1];
    if i > 0 {
      assert s[i] == s[1..][i - 1];
      UniqueRowsAt(s[1..], i - 1, j - 1);
    } else {
      assert s[j] in s[1..];
    }
  }

  /** With unique keys, the row with a given id is the only row with that id. */
  lemma UniqueId(s: seq<CartItem>, k: nat, t: CartItem)
    requires UniqueRows(s) && k < |s| && t in s && t.id == s[k].id
    ensures t == s[k]
  {
    var i :| 0 <= i < |s| && s[i] == t;
    if i < k {
      UniqueRowsAt(s, i, k);
    } else if k < i {
      UniqueRowsAt(s, k, i);
    }
  }
}
