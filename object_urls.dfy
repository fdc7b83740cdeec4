/**
 * The browser's object-URL registry behind `URL.createObjectURL` and
 * `URL.revokeObjectURL`, as used by the video store and the upload components.
 * A handle is the opaque string "blob:<n>" for a counter value n; the registry
 * maps the live handles to the blob each one points at.
 */
module ObjectUrls {
  import opened Wrappers
  import Text

  /** An opaque binary payload (the bytes of a video file). */
  type Blob = seq<bv8>

  const Prefix: string := "blob:"

  function HandleText(n: nat): string {
    Prefix + Text.NatToDecimal(n)
  }

  /** Recovers the counter value of a handle; None for a string no `Create` produced. */
  function HandleNumber(url: string): (r: Option<nat>)
    ensures r.Some? ==> HandleText(r.value) == url
  {
    if |url| >= |Prefix| && url[..|Prefix|] == Prefix then
      var digits := url[|Prefix|..];
      match Text.ParseNat(digits)
      case None => None
      case Some(n) =>
        if Text.NatToDecimal(n) == digits then (assert url == Prefix + digits; Some(n)) else None
    else None
  }

  /** Every handle the registry hands out is read back as the number it was made from. */
  lemma HandleRoundTrip(n: nat)
    ensures HandleNumber(HandleText(n)) == Some(n)
  {
    var url := HandleText(n);
    assert url[..|Prefix|] == Prefix;
    assert url[|Prefix|..] == Text.NatToDecimal(n);
    Text.ParseRenderRoundTrip(n);
  }

  class Registry {
    /** Live handles, by counter value, and the blob each refers to. */
    var live: map<nat, Blob>
    /** The counter value the next handle gets. */
    var next: nat

    ghost predicate Valid()
      reads this
    {
      forall n :: n in live ==> n < next
    }

    constructor ()
      ensures Valid() && live == map[] && next == 0
    {
      live := map[];
      next := 0;
    }

    /** True when `url` names a handle that has not been revoked. */
    function IsLive(url: string): bool
      reads this
    {
      match HandleNumber(url)
      case Some(n) => n in live
      case None => false
    }

    /** `URL.createObjectURL(blob)`: a fresh handle, live from now on. */
    method Create(blob: Blob) returns (url: string)
      requires Valid()
      modifies this
      ensures Valid()
      ensures HandleNumber(url) == Some(old(next))
      ensures old(next) !in old(live)
      ensures live == old(live)[old(next) := blob]
      ensures !old(IsLive(url)) && IsLive(url)
    {
      url := HandleText(next);
      HandleRoundTrip(next);
      live := live[next := blob];
      next := next + 1;
    }

    /** `URL.revokeObjectURL(url)`: the handle stops being live; an unknown or revoked handle is ignored. */
    method Revoke(url: string)
      requires Valid()
      modifies this
      ensures Valid() && next == old(next)
      ensures live == match HandleNumber(url)
        case Some(n) => old(live) - {n}
        case None => old(live)
      ensures !IsLive(url)
    {
      match HandleNumber(url)
      case Some(n) => live := live - {n};
      case None =>
    }
  }

  /** Creating a handle and then revoking it leaves the same live set. */
  lemma CreateThenRevoke(live: map<nat, Blob>, next: nat, blob: Blob)
    requires forall n :: n in live ==> n < next
    ensures HandleNumber(HandleText(next)) == Some(next)
    ensures live[next := blob] - {next} == live
  {
    HandleRoundTrip(next);
    assert next !in live;
  }
}
