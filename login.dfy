/**
 * Signing in (accounts/views.py) and what it does to the anonymous cart.
 * Django's `login` gives the session a new key, so the first
 * `_get_or_create_cart` after signing in looks for a session cart under the
 * new key, not under the key the anonymous cart was filed under.
 */
module Login {
  import opened Common
  import opened Carts
  import opened Store
  import opened CartViews

  /**
   * As the code runs: `login` replaced the session key `oldKey` by `newKey`,
   * and the next cart lookup merges the cart filed under `newKey`, which does
   * not exist. The user's cart keeps its old lines and the anonymous cart
   * stays behind, unmerged, under `oldKey`.
   */
  lemma RotatedKeyOrphansGuestCart(userCarts: map<UserId, seq<Line>>, guestCarts: map<SessionKey, seq<Line>>,
                                   u: UserId, oldKey: SessionKey, newKey: SessionKey, freshKey: SessionKey)
    requires oldKey in guestCarts && newKey !in guestCarts
    ensures var r := Resolve(userCarts, guestCarts, Request(Some(u), Some(newKey)), freshKey);
      && r.Lines() == UserLinesOr(userCarts, u)
      && oldKey in r.guestCarts && r.guestCarts[oldKey] == guestCarts[oldKey]
  {
    assert LinesOr(guestCarts, newKey) == [];
    assert Merge(UserLinesOr(userCarts, u), []) == UserLinesOr(userCarts, u);
  }

  /**
   * One concrete run: two of product 1 in the anonymous cart "a", no user
   * cart yet, `login` issues key "b"; after the lookup the user's cart is
   * empty, while the merge the view means to do would give it the two items.
   */
  lemma RotatedKeyExample()
    ensures var r := Resolve(map[], map["a" := [Line(1, 2)]], Request(Some(7), Some("b")), "c");
      && Qty(Contents(r.Lines()), 1) == 0
      && "a" in r.guestCarts
    ensures var r := Resolve(map[], map["a" := [Line(1, 2)]], Request(Some(7), Some("a")), "c");
      Qty(Contents(r.Lines()), 1) == 2
  {
    RotatedKeyOrphansGuestCart(map[], map["a" := [Line(1, 2)]], 7, "a", "b", "c");
    assert Contents([]) == map[];
    ResolveMerges(map[], map["a" := [Line(1, 2)]], 7, "a", "c", 1);
    assert Contents([Line(1, 2)]) == map[1 := 2] by {
      assert [Line(1, 2)][..0] == [];
    }
  }

  /**
   * Signing in as the view evidently intends: the anonymous cart filed under
   * the key the session had before `login` (`oldKey`, if any) is merged into
   * the user's cart, and the session then carries the key `login` issued.
   */
  function SignIn(userCarts: map<UserId, seq<Line>>, guestCarts: map<SessionKey, seq<Line>>,
                  u: UserId, oldKey: Option<SessionKey>, newKey: SessionKey): (r: Resolution)
    ensures r.cart == UserCart(u) && r.session == Some(newKey) && r.HasCart()
    ensures oldKey.Some? ==> r.guestCarts == guestCarts - {oldKey.value}
    ensures oldKey.None? ==> r.guestCarts == guestCarts && r.Lines() == UserLinesOr(userCarts, u)
    ensures forall v :: v in userCarts && v != u ==> v in r.userCarts && r.userCarts[v] == userCarts[v]
  {
    Resolve(userCarts, guestCarts, Request(Some(u), oldKey), newKey).(session := Some(newKey))
  }

  /**
   * After signing in, the user's cart holds every product of the old user
   * cart and of the anonymous cart, with the two quantities added.
   */
  lemma SignInKeepsGuestItems(userCarts: map<UserId, seq<Line>>, guestCarts: map<SessionKey, seq<Line>>,
                              u: UserId, oldKey: SessionKey, newKey: SessionKey, p: ProductId)
    ensures var r := SignIn(userCarts, guestCarts, u, Some(oldKey), newKey);
      var before := Contents(UserLinesOr(userCarts, u));
      var guest := Contents(LinesOr(guestCarts, oldKey));
      && (p in Contents(r.Lines()) <==> p in before || p in guest)
      && Qty(Contents(r.Lines()), p) == Qty(before, p) + Qty(guest, p)
  {
    ResolveMerges(userCarts, guestCarts, u, oldKey, newKey, p);
  }

  /**
   * The cart lookups that follow a sign-in, which carry the new key, leave
   * the merged cart as it is.
   */
  lemma SignInThenResolve(userCarts: map<UserId, seq<Line>>, guestCarts: map<SessionKey, seq<Line>>,
                          u: UserId, oldKey: Option<SessionKey>, newKey: SessionKey, freshKey: SessionKey)
    requires newKey !in guestCarts
    ensures var r := SignIn(userCarts, guestCarts, u, oldKey, newKey);
      var next := Resolve(r.userCarts, r.guestCarts, Request(Some(u), Some(newKey)), freshKey);
      next.Lines() == r.Lines() && next.guestCarts == r.guestCarts
  {
    var r := SignIn(userCarts, guestCarts, u, oldKey, newKey);
    assert newKey !in r.guestCarts;
    assert LinesOr(r.guestCarts, newKey) == [];
    assert Merge(UserLinesOr(r.userCarts, u), []) == UserLinesOr(r.userCarts, u);
    assert r.guestCarts - {newKey} == r.guestCarts;
  }
}
