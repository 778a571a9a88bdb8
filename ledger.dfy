/** Selections over the cart table: every user's lines live in one sequence,
    in insertion order, and the views filter it by owner. */
module Ledger {
  import opened Domain
  import opened Permissions
  import opened Pricing

  /** The lines owned by `user`, in table order. */
  function CartOf(cart: seq<CartLine>, user: UserId): (r: seq<CartLine>)
    ensures forall l :: l in r <==> l in cart && l.user == user
    ensures |r| <= |cart|
  {
    if cart == [] then []
    else if cart[0].user == user then [cart[0]] + CartOf(cart[1..], user)
    else CartOf(cart[1..], user)
  }

  /** The table after every line of `user` is deleted. */
  function Without(cart: seq<CartLine>, user: UserId): (r: seq<CartLine>)
    ensures forall l :: l in r <==> l in cart && l.user != user
    ensures |r| <= |cart|
  {
    if cart == [] then []
    else if cart[0].user == user then Without(cart[1..], user)
    else [cart[0]] + Without(cart[1..], user)
  }

  /** The primary-key property of the cart table. */
  ghost predicate UniqueIds(cart: seq<CartLine>) {
    forall i, j :: 0 <= i < j < |cart| ==> cart[i].id != cart[j].id
  }

  /** The position of the line with primary key `id`, if there is one. */
  function IndexOf(cart: seq<CartLine>, id: int): (r: Option<nat>)
    ensures r.Some? ==> r.value < |cart| && cart[r.value].id == id
    ensures r.None? <==> forall k :: 0 <= k < |cart| ==> cart[k].id != id
  {
    if cart == [] then None
    else if cart[0].id == id then Some(0)
    else match IndexOf(cart[1..], id)
      case None => None
      case Some(k) => Some(k + 1)
  }

  /** How the cart serializer renders one line. */
  function Render(line: CartLine): CartEntry {
    CartEntry(line.id, line.menuitem, line.quantity, LineTotal(line))
  }

  /** Listing the cart: customers only, and only their own lines, each
      rendered with its reported total. */
  function ListCart(cart: seq<CartLine>, caller: Principal): (r: Result<seq<CartEntry>>)
    ensures r.Err? <==> !IsCustomer(caller)
    ensures r.Err? ==> r.error == Forbidden
    ensures r.Ok? ==>
      var lines := CartOf(cart, caller.id);
      && |r.value| == |lines|
      && forall k :: 0 <= k < |lines| ==>
           && r.value[k].id == lines[k].id
           && r.value[k].menuitem == lines[k].menuitem
           && r.value[k].quantity == lines[k].quantity
           && r.value[k].price == lines[k].unitPrice * lines[k].quantity
  {
    if !IsCustomer(caller) then Err(Forbidden)
    else
      var lines := CartOf(cart, caller.id);
      Ok(seq(|lines|, k requires 0 <= k < |lines| => Render(lines[k])))
  }

  /** When every stored line total is consistent, the listing reports exactly
      the stored totals. */
  lemma ListedTotalsAreStored(cart: seq<CartLine>, caller: Principal)
    requires forall i :: 0 <= i < |cart| ==> Priced(cart[i])
    requires IsCustomer(caller)
    ensures ListCart(cart, caller).Ok?
    ensures forall k :: 0 <= k < |CartOf(cart, caller.id)| ==>
      ListCart(cart, caller).value[k].price == CartOf(cart, caller.id)[k].price
  {
    var lines := CartOf(cart, caller.id);
    forall k | 0 <= k < |lines| ensures Priced(lines[k]) {
      assert lines[k] in cart;
    }
  }

  /** Deleting a user's lines leaves that user nothing. */
  lemma {:induction false} WithoutEmptiesCart(cart: seq<CartLine>, user: UserId)
    ensures CartOf(Without(cart, user), user) == []
  {
    if cart != [] {
      WithoutEmptiesCart(cart[1..], user);
    }
  }

  /** Deleting one user's lines leaves every other user's lines as they were, in order. */
  lemma {:induction false} WithoutKeepsOthers(cart: seq<CartLine>, user: UserId, other: UserId)
    requires user != other
    ensures CartOf(Without(cart, user), other) == CartOf(cart, other)
  {
    if cart != [] {
      WithoutKeepsOthers(cart[1..], user, other);
      if cart[0].user != user {
        assert Without(cart, user) == [cart[0]] + Without(cart[1..], user);
        assert ([cart[0]] + Without(cart[1..], user))[1..] == Without(cart[1..], user);
      }
    }
  }

  /** The table is exactly the user's lines plus everyone else's: deleting
      removes those lines and nothing more. */
  lemma {:induction false} CartPartition(cart: seq<CartLine>, user: UserId)
    ensures multiset(CartOf(cart, user)) + multiset(Without(cart, user)) == multiset(cart)
  {
    if cart != [] {
      var rest := cart[1..];
      CartPartition(rest, user);
      assert cart == [cart[0]] + rest;
      if cart[0].user == user {
        assert CartOf(cart, user) == [cart[0]] + CartOf(rest, user);
        assert Without(cart, user) == Without(rest, user);
      } else {
        assert CartOf(cart, user) == CartOf(rest, user);
        assert Without(cart, user) == [cart[0]] + Without(rest, user);
      }
    }
  }

  /** Deleting some lines cannot make two primary keys collide. */
  lemma {:induction false} WithoutUniqueIds(cart: seq<CartLine>, user: UserId)
    requires UniqueIds(cart)
    ensures UniqueIds(Without(cart, user))
  {
    if cart != [] {
      var rest := cart[1..];
      assert UniqueIds(rest) by {
        forall i, j | 0 <= i < j < |rest| ensures rest[i].id != rest[j].id {
          assert rest[i] == cart[i + 1] && rest[j] == cart[j + 1];
        }
      }
      WithoutUniqueIds(rest, user);
      if cart[0].user != user {
        var w := Without(rest, user);
        var r := [cart[0]] + w;
        forall j | 0 <= j < |w| ensures cart[0].id != w[j].id {
          assert w[j] in rest;
          var k :| 0 <= k < |rest| && rest[k] == w[j];
          assert rest[k] == cart[k + 1];
        }
        forall i, j | 0 <= i < j < |r| ensures r[i].id != r[j].id {
          if i == 0 {
            assert r[j] == w[j - 1];
          } else {
            assert r[i] == w[i - 1] && r[j] == w[j - 1];
          }
        }
      }
    }
  }

  /** What deleting a user's lines does to the table as a whole: that user
      has no lines left, every other user keeps theirs, exactly the user's
      lines are gone, and primary keys stay distinct. */
  lemma DeleteUserLines(cart: seq<CartLine>, user: UserId)
    requires UniqueIds(cart)
    ensures UniqueIds(Without(cart, user))
    ensures CartOf(Without(cart, user), user) == []
    ensures forall other :: other != user ==> CartOf(Without(cart, user), other) == CartOf(cart, other)
    ensures multiset(Without(cart, user)) + multiset(CartOf(cart, user)) == multiset(cart)
  {
    WithoutUniqueIds(cart, user);
    WithoutEmptiesCart(cart, user);
    CartPartition(cart, user);
    forall other | other != user ensures CartOf(Without(cart, user), other) == CartOf(cart, other) {
      WithoutKeepsOthers(cart, user, other);
    }
  }

  /** Selecting one user's lines distributes over concatenation. */
  lemma {:induction false} CartOfAppend(a: seq<CartLine>, b: seq<CartLine>, user: UserId)
    ensures CartOf(a + b, user) == CartOf(a, user) + CartOf(b, user)
  {
    if a == [] {
      assert a + b == b;
    } else {
      assert (a + b)[1..] == a[1..] + b;
      CartOfAppend(a[1..], b, user);
    }
  }

  /** Removing the line at one position leaves the cart of every user but
      its owner as it was, in order. */
  lemma RemoveAtKeepsCart(cart: seq<CartLine>, i: nat, v: UserId)
    requires i < |cart| && v != cart[i].user
    ensures CartOf(cart[..i] + cart[i + 1..], v) == CartOf(cart, v)
  {
    assert cart == cart[..i] + ([cart[i]] + cart[i + 1..]);
    CartOfAppend(cart[..i], cart[i + 1..], v);
    CartOfAppend(cart[..i], [cart[i]] + cart[i + 1..], v);
    CartOfAppend([cart[i]], cart[i + 1..], v);
  }

  /** Removing the line at one position leaves the primary keys distinct, the
      remaining lines are those whose key differs from the removed one, and
      every user but the removed line's owner keeps the same cart, in order. */
  lemma RemoveAtKeepsOthers(cart: seq<CartLine>, i: nat)
    requires UniqueIds(cart) && i < |cart|
    ensures UniqueIds(cart[..i] + cart[i + 1..])
    ensures forall l :: l in cart[..i] + cart[i + 1..] <==> l in cart && l.id != cart[i].id
    ensures forall v :: v != cart[i].user ==> CartOf(cart[..i] + cart[i + 1..], v) == CartOf(cart, v)
  {
    var r := cart[..i] + cart[i + 1..];
    forall v | v != cart[i].user ensures CartOf(r, v) == CartOf(cart, v) {
      RemoveAtKeepsCart(cart, i, v);
    }
    assert forall k :: 0 <= k < |r| ==> r[k] == cart[if k < i then k else k + 1];
    forall l ensures l in r <==> l in cart && l.id != cart[i].id {
      if l in cart && l.id != cart[i].id {
        var k :| 0 <= k < |cart| && cart[k] == l;
        assert k != i;
        assert r[if k < i then k else k - 1] == l;
      }
    }
  }
}
