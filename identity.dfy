/**
 * The viewer id the board list records views under: the signed-in user's
 * id, or `guest-` followed by an anonymous id kept in browser storage under
 * the key `guest_id`.
 */
module Identity {

  import opened Opt
  import opened JsStrings

  const GuestKey := "guest_id"
  const GuestPrefix := "guest-"

  /** `localStorage.getItem("guest_id") || crypto.randomUUID()`; `freshUuid` stands for the random id. */
  function GuestIdFrom(items: map<string, string>, freshUuid: string): (g: string)
    ensures GuestKey in items && items[GuestKey] != "" ==> g == items[GuestKey]
    ensures !(GuestKey in items && items[GuestKey] != "") ==> g == freshUuid
  {
    if GuestKey in items && items[GuestKey] != "" then items[GuestKey] else freshUuid
  }

  /** `authUser?.id ?? \`guest-${guestId}\``. */
  function ViewerId(authId: Option<string>, guestId: string): (v: string)
    ensures authId.Some? ==> v == authId.value
    ensures authId.None? ==> StartsWith(v, GuestPrefix) && v[|GuestPrefix|..] == guestId
  {
    match authId
    case Some(id) => id
    case None => GuestPrefix + guestId
  }

  /** Browser storage, as far as the board list uses it. */
  class GuestStore {
    var items: map<string, string>

    constructor (items: map<string, string>)
      ensures this.items == items
    {
      this.items := items;
    }

    /** Read or create the guest id, write it back, and build the viewer id. */
    method ResolveViewer(authId: Option<string>, freshUuid: string) returns (viewerId: string, guestId: string)
      modifies this
      ensures guestId == GuestIdFrom(old(items), freshUuid)
      ensures items == old(items)[GuestKey := guestId]
      ensures viewerId == ViewerId(authId, guestId)
      // a stored guest id is reused unchanged and the storage stays as it was
      ensures GuestKey in old(items) && old(items)[GuestKey] != "" ==> guestId == old(items)[GuestKey] && items == old(items)
    {
      var stored := if GuestKey in items then Some(items[GuestKey]) else None;
      guestId := if OptTruthy(stored) then stored.value else freshUuid;
      items := items[GuestKey := guestId];
      viewerId := ViewerId(authId, guestId);
    }
  }

  /** Once a non-empty guest id has been written, every later resolution returns it again. */
  lemma GuestIdStable(items: map<string, string>, fresh1: string, fresh2: string)
    requires fresh1 != ""
    ensures var g := GuestIdFrom(items, fresh1);
      GuestIdFrom(items[GuestKey := g], fresh2) == g
  {
  }

  /** A guest viewer id never coincides with a signed-in one that does not itself start with `guest-`. */
  lemma GuestAndUserIdsDiffer(userId: string, guestId: string)
    requires !StartsWith(userId, GuestPrefix)
    ensures ViewerId(Some(userId), guestId) != ViewerId(None, guestId)
  {
  }
}
