/**
 * The stored user document and the document-store queries the controller
 * issues: `findOne` with a filter, returning the first match in the
 * collection's natural (insertion) order, and removal of a document.
 */
module UserModel {
  import opened Wrappers
  import opened JsText
  import opened Credentials

  /** A document's `_id`. */
  type AccountId = nat

  /**
   * A stored user. Fields the request left `undefined` are stored absent
   * (`None`); the password is only ever stored as a bcrypt hash.
   */
  datatype Account = Account(
    firstName: Field,
    lastName: Field,
    name: string,
    email: Field,
    phone: Field,
    passwordHash: PasswordHash,
    isAdmin: bool,
    resetPasswordToken: Option<string>,
    resetPasswordExpires: Option<nat>)

  /** A pending reset token always comes with its expiry, and the other way round. */
  predicate ResetFieldsPaired(a: Account) {
    a.resetPasswordToken.Some? <==> a.resetPasswordExpires.Some?
  }

  /** The filters the controller passes to `findOne`. */
  datatype Filter =
    | ByEmail(email: Field)
      // { resetPasswordToken: token, resetPasswordExpires: { $gt: now } }
    | ByLiveResetToken(token: string, now: nat)

  predicate Matches(a: Account, f: Filter) {
    match f
    case ByEmail(e) => a.email == e
    case ByLiveResetToken(t, now) =>
      a.resetPasswordToken == Some(t) && a.resetPasswordExpires.Some? && a.resetPasswordExpires.value > now
  }

  predicate Distinct(ids: seq<AccountId>) {
    forall i, j :: 0 <= i < j < |ids| ==> ids[i] != ids[j]
  }

  /**
   * `findOne(filter)`: the position, in natural order, of the first document
   * that matches, or None when no document does.
   */
  function FindFirst(order: seq<AccountId>, accounts: map<AccountId, Account>, f: Filter): (r: Option<nat>)
    requires forall k :: 0 <= k < |order| ==> order[k] in accounts
    ensures r.Some? ==> r.value < |order| && Matches(accounts[order[r.value]], f)
    ensures r.Some? ==> forall k :: 0 <= k < r.value ==> !Matches(accounts[order[k]], f)
    ensures r.None? ==> forall k :: 0 <= k < |order| ==> !Matches(accounts[order[k]], f)
  {
    if order == [] then None
    else if Matches(accounts[order[0]], f) then Some(0)
    else
      match FindFirst(order[1..], accounts, f)
      case None => None
      case Some(k) => Some(k + 1)
  }

  /** The natural order after `findByIdAndDelete(id)`: every other id, in the same order. */
  function RemoveId(order: seq<AccountId>, id: AccountId): (r: seq<AccountId>)
    ensures forall x :: x in r <==> x in order && x != id
    ensures Distinct(order) ==> Distinct(r)
    ensures id !in order ==> r == order
  {
    if order == [] then []
    else if order[0] == id then RemoveId(order[1..], id)
    else
      var rest := RemoveId(order[1..], id);
      assert Distinct(order) ==> order[0] !in order[1..];
      [order[0]] + rest
  }

  /**
   * Removing the id at position `k` of a duplicate-free order cuts out that
   * position and keeps the rest in their order.
   */
  lemma {:induction false} RemoveIdAt(order: seq<AccountId>, k: nat)
    requires Distinct(order) && k < |order|
    ensures RemoveId(order, order[k]) == order[..k] + order[k + 1..]
  {
    var id := order[k];
    var tail := order[1..];
    if k == 0 {
      assert id !in tail by {
        forall j | 0 <= j < |tail| ensures tail[j] != id {
          assert tail[j] == order[j + 1];
        }
      }
      assert RemoveId(order, id) == RemoveId(tail, id);
      assert order[..k] + order[k + 1..] == tail;
    } else {
      assert order[0] != id;
      assert RemoveId(order, id) == [order[0]] + RemoveId(tail, id);
      assert Distinct(tail) by {
        forall i, j | 0 <= i < j < |tail| ensures tail[i] != tail[j] {
          assert tail[i] == order[i + 1] && tail[j] == order[j + 1];
        }
      }
      assert tail[k - 1] == id;
      RemoveIdAt(tail, k - 1);
      assert order[..k] + order[k + 1..] == [order[0]] + (tail[..k - 1] + tail[k..]);
    }
  }
}
