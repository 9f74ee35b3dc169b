/**
 * User records as the frontend receives them from the backend, and the
 * identifier patch that copies MongoDB's `_id` into the public `id` field.
 */
module Identity {
  import opened Wrappers

  /**
   * A user record. `id` is the public identifier the frontend reads,
   * `mongoId` is the `_id` field of the MongoDB document; both may be absent
   * from a payload. `profile` holds the fields the session code never inspects.
   */
  datatype User = User(
    id: Option<string>,
    mongoId: Option<string>,
    username: string,
    email: string,
    role: string,
    profile: map<string, string>)

  /** JavaScript truthiness of an optional string: absent and `""` are falsy. */
  predicate Truthy(s: Option<string>)
  {
    s.Some? && s.value != ""
  }

  /** A record whose storage identifier, when it has one, is mirrored by a public one. */
  predicate IsNormalized(u: User)
  {
    Truthy(u.mongoId) ==> Truthy(u.id)
  }

  /** `if (user._id && !user.id) user.id = user._id`, applied to one record. */
  function Normalize(u: User): (r: User)
    ensures IsNormalized(r)
    ensures r == u.(id := r.id)
    ensures Truthy(u.mongoId) && !Truthy(u.id) ==> r.id == u.mongoId
    ensures Truthy(u.id) ==> r == u
    ensures !Truthy(u.mongoId) ==> r == u
  {
    if Truthy(u.mongoId) && !Truthy(u.id) then u.(id := u.mongoId) else u
  }

  /** Applying the patch a second time changes nothing. */
  lemma NormalizeIdempotent(u: User)
    ensures Normalize(Normalize(u)) == Normalize(u)
  {
  }

  /** The records the patch leaves alone are exactly the normalised ones. */
  lemma NormalizeFixesExactlyNormalized(u: User)
    ensures Normalize(u) == u <==> IsNormalized(u)
  {
  }

  /** The patch applied to every element of a list, in order (`.map` over the array). */
  function NormalizeAll(us: seq<User>): (rs: seq<User>)
    ensures |rs| == |us|
    ensures forall i :: 0 <= i < |us| ==> rs[i] == Normalize(us[i])
  {
    if us == [] then [] else [Normalize(us[0])] + NormalizeAll(us[1..])
  }

  /** Every element of a patched list is normalised. */
  predicate AllNormalized(us: seq<User>)
  {
    forall i :: 0 <= i < |us| ==> IsNormalized(us[i])
  }

  /** Patching a list twice is patching it once. */
  lemma {:induction false} NormalizeAllIdempotent(us: seq<User>)
    ensures NormalizeAll(NormalizeAll(us)) == NormalizeAll(us)
    ensures AllNormalized(NormalizeAll(us))
  {
    if us != [] {
      NormalizeAllIdempotent(us[1..]);
      NormalizeIdempotent(us[0]);
      assert NormalizeAll(us) == [Normalize(us[0])] + NormalizeAll(us[1..]);
      assert NormalizeAll(us)[1..] == NormalizeAll(us[1..]);
    }
  }

  /** Each element is patched independently: patching distributes over concatenation. */
  lemma {:induction false} NormalizeAllConcat(a: seq<User>, b: seq<User>)
    ensures NormalizeAll(a + b) == NormalizeAll(a) + NormalizeAll(b)
  {
    if a != [] {
      assert (a + b)[1..] == a[1..] + b;
      NormalizeAllConcat(a[1..], b);
    }
  }
}
