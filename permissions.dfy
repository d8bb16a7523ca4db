/**
 * The permission side of PreviewActivity: reading the declared permissions
 * from the package manifest, checking them against the operating system's
 * current grants, and building the batch of permissions to request.
 *
 * The package manager is replaced by a PackageLookup value and the
 * operating system's grant check (checkSelfPermission) by a total
 * predicate `granted` that is passed in.
 */
module Permissions {
  import opened Wrappers

  /** Outcome of asking the package manager for this package's info. */
  datatype PackageLookup =
    | LookupFailed                                        // getPackageInfo threw
    | Found(requestedPermissions: Option<seq<string>>)    // None: the array was null

  /** The declared permissions, falling back to none when they cannot be read. */
  function RequiredPermissions(lookup: PackageLookup): (ps: seq<string>)
    ensures lookup.LookupFailed? ==> ps == []
    ensures lookup.Found? && lookup.requestedPermissions.None? ==> ps == []
    ensures lookup.Found? && lookup.requestedPermissions.Some? ==> ps == lookup.requestedPermissions.value
  {
    match lookup
    case LookupFailed => []
    case Found(None) => []
    case Found(Some(ps)) => if |ps| > 0 then ps else []
  }

  /** Every permission in `required` is currently granted. */
  predicate AllGranted(required: seq<string>, granted: string -> bool) {
    forall p :: p in required ==> granted(p)
  }

  /** The permissions of `required` that are not granted, in their original order. */
  function Missing(required: seq<string>, granted: string -> bool): seq<string>
  {
    if required == [] then []
    else
      var last := required[|required| - 1];
      Missing(required[..|required| - 1], granted) + (if granted(last) then [] else [last])
  }

  /** `a` is `b` with some elements left out, the rest kept in order. */
  predicate IsSubsequence(a: seq<string>, b: seq<string>)
  {
    if a == [] then true
    else if b == [] then false
    else if a[|a| - 1] == b[|b| - 1] then IsSubsequence(a[..|a| - 1], b[..|b| - 1])
    else IsSubsequence(a, b[..|b| - 1])
  }

  /** Each permission occurs in the missing list as often as in the manifest when ungranted, and not at all when granted. */
  lemma {:induction false} MissingCount(required: seq<string>, granted: string -> bool, p: string)
    ensures multiset(Missing(required, granted))[p] == if granted(p) then 0 else multiset(required)[p]
  {
    if required != [] {
      var init, last := required[..|required| - 1], required[|required| - 1];
      assert required == init + [last];
      MissingCount(init, granted, p);
    }
  }

  /** A permission is requested exactly when it is required and not granted. */
  lemma {:induction false} MissingMembership(required: seq<string>, granted: string -> bool, p: string)
    ensures p in Missing(required, granted) <==> p in required && !granted(p)
  {
    MissingCount(required, granted, p);
    assert p in Missing(required, granted) <==> multiset(Missing(required, granted))[p] > 0;
    assert p in required <==> multiset(required)[p] > 0;
  }

  /** The missing list keeps the manifest's order. */
  lemma {:induction false} MissingIsSubsequence(required: seq<string>, granted: string -> bool)
    ensures IsSubsequence(Missing(required, granted), required)
  {
    if required != [] {
      var init, last := required[..|required| - 1], required[|required| - 1];
      var mi := Missing(init, granted);
      assert Missing(required, granted) == mi + (if granted(last) then [] else [last]);
      MissingIsSubsequence(init, granted);
      assert init + [last] == required;
      if granted(last) {
        assert Missing(required, granted) == mi;
        SubsequenceOfPrefix(mi, init, last);
      } else {
        var m := mi + [last];
        assert Missing(required, granted) == m;
        assert m[..|m| - 1] == mi;
        assert IsSubsequence(m[..|m| - 1], required[..|required| - 1]);
      }
    }
  }

  /** A subsequence of `b` stays one when an element is appended to `b`. */
  lemma {:induction false} SubsequenceOfPrefix(a: seq<string>, b: seq<string>, x: string)
    requires IsSubsequence(a, b)
    ensures IsSubsequence(a, b + [x])
    decreases |b|, 1
  {
    var bx := b + [x];
    assert bx[..|bx| - 1] == b;
    if a != [] && a[|a| - 1] == x {
      SubsequenceDropLast(a, b);
    }
  }

  /** Dropping the last element of a subsequence leaves a subsequence. */
  lemma {:induction false} SubsequenceDropLast(a: seq<string>, b: seq<string>)
    requires a != [] && IsSubsequence(a, b)
    ensures IsSubsequence(a[..|a| - 1], b)
    decreases |b|, 0
  {
    var a', b' := a[..|a| - 1], b[..|b| - 1];
    assert b' + [b[|b| - 1]] == b;
    if a[|a| - 1] == b[|b| - 1] {
      SubsequenceOfPrefix(a', b', b[|b| - 1]);
    } else {
      SubsequenceDropLast(a, b');
      SubsequenceOfPrefix(a', b', b[|b| - 1]);
    }
  }

  /** Nothing is missing exactly when everything is granted. */
  lemma {:induction false} MissingEmptyIffAllGranted(required: seq<string>, granted: string -> bool)
    ensures Missing(required, granted) == [] <==> AllGranted(required, granted)
  {
    var m := Missing(required, granted);
    forall p ensures p in m <==> p in required && !granted(p) {
      MissingMembership(required, granted, p);
    }
    if m != [] {
      assert m[0] in m;
    }
  }

  /** An unreadable or empty manifest asks for nothing, so every grant check passes and nothing is requested. */
  lemma UnreadableManifestNeedsNothing(lookup: PackageLookup, granted: string -> bool)
    requires lookup.LookupFailed? || lookup == Found(None) || lookup == Found(Some([]))
    ensures AllGranted(RequiredPermissions(lookup), granted)
    ensures Missing(RequiredPermissions(lookup), granted) == []
  {
  }

  /** allPermissionsGranted: stops at the first permission that is not granted. */
  method AllPermissionsGranted(lookup: PackageLookup, granted: string -> bool) returns (ok: bool)
    ensures ok <==> AllGranted(RequiredPermissions(lookup), granted)
  {
    var required := RequiredPermissions(lookup);
    for i := 0 to |required|
      invariant forall j :: 0 <= j < i ==> granted(required[j])
    {
      if !granted(required[i]) {
        return false;
      }
    }
    return true;
  }

  /** The loop of getRuntimePermissions: collects the ungranted permissions. */
  method NeededPermissions(lookup: PackageLookup, granted: string -> bool) returns (needed: seq<string>)
    ensures needed == Missing(RequiredPermissions(lookup), granted)
  {
    var required := RequiredPermissions(lookup);
    needed := [];
    for i := 0 to |required|
      invariant needed == Missing(required[..i], granted)
    {
      assert required[..i + 1][..i] == required[..i];
      if !granted(required[i]) {
        needed := needed + [required[i]];
      }
    }
    assert required[..|required|] == required;
  }

  /**
   * getRuntimePermissions: the batch handed to requestPermissions, or None when
   * the batch would be empty and no request is made.
   */
  method GetRuntimePermissions(lookup: PackageLookup, granted: string -> bool) returns (request: Option<seq<string>>)
    ensures request.None? <==> AllGranted(RequiredPermissions(lookup), granted)
    ensures request.Some? ==> request.value == Missing(RequiredPermissions(lookup), granted) && request.value != []
  {
    var needed := NeededPermissions(lookup, granted);
    MissingEmptyIffAllGranted(RequiredPermissions(lookup), granted);
    if needed != [] {
      request := Some(needed);
    } else {
      request := None;
    }
  }
}
