/** The hash-security boundary: which identifiers the allowlist lets
    through, and the two-pass filter the batch read path runs over its input. */
module Validation {
  import opened Types

  /** The position of the first identifier the allowlist rejects, or |cids|. */
  function FirstInvalid(a: Allowlist, cids: seq<Cid>): (i: nat)
    ensures i <= |cids|
    ensures forall j :: 0 <= j < i ==> Allowed(a, cids[j])
    ensures i < |cids| ==> !Allowed(a, cids[i])
  {
    if cids == [] || !Allowed(a, cids[0]) then 0
    else 1 + FirstInvalid(a, cids[1..])
  }

  /** The identifiers the allowlist accepts, in input order (the reference
      definition of what the batch read path goes on to look up). */
  function Allowlisted(a: Allowlist, ks: seq<Cid>): (r: seq<Cid>)
    ensures |r| <= |ks|
    ensures forall i :: 0 <= i < |r| ==> Allowed(a, r[i])
  {
    if ks == [] then []
    else if Allowed(a, ks[0]) then [ks[0]] + Allowlisted(a, ks[1..])
    else Allowlisted(a, ks[1..])
  }

  /** Exactly the accepted identifiers of the input survive the filter. */
  lemma {:induction false} AllowlistedMembers(a: Allowlist, ks: seq<Cid>)
    ensures forall c :: c in Allowlisted(a, ks) <==> c in ks && Allowed(a, c)
    decreases |ks|
  {
    if ks != [] {
      AllowlistedMembers(a, ks[1..]);
      assert forall c :: c in ks <==> c == ks[0] || c in ks[1..];
    }
  }

  lemma {:induction false} AllowlistedAppend(a: Allowlist, s: seq<Cid>, t: seq<Cid>)
    ensures Allowlisted(a, s + t) == Allowlisted(a, s) + Allowlisted(a, t)
    decreases |s|
  {
    if s == [] {
      assert s + t == t;
    } else {
      assert (s + t)[1..] == s[1..] + t;
      AllowlistedAppend(a, s[1..], t);
    }
  }

  /** Filtering keeps the input exactly when the allowlist accepts all of it. */
  lemma {:induction false} AllowlistedIdentity(a: Allowlist, ks: seq<Cid>)
    ensures Allowlisted(a, ks) == ks <==> forall i :: 0 <= i < |ks| ==> Allowed(a, ks[i])
    decreases |ks|
  {
    if ks != [] {
      AllowlistedIdentity(a, ks[1..]);
      if !Allowed(a, ks[0]) {
        assert |Allowlisted(a, ks)| < |ks|;
      }
    }
  }

  /** The validation of the batch read path as the source writes it. A range
      loop stops at the first rejected identifier; when none is rejected its
      index variable is left on the last element (and at 0 for an empty
      input). Unless that index equals the length, a second pass copies the
      prefix before it and re-checks everything from the index on. The
      result is always the order-preserving filter of the input. */
  method DropUnsafeCids(a: Allowlist, ks: seq<Cid>) returns (valid: seq<Cid>)
    ensures valid == Allowlisted(a, ks)
  {
    var lastAllValidIndex := 0;
    var i := 0;
    while i < |ks|
      invariant 0 <= i <= |ks|
      invariant forall j :: 0 <= j < i ==> Allowed(a, ks[j])
      invariant lastAllValidIndex == if i == 0 then 0 else i - 1
    {
      lastAllValidIndex := i;
      if !Allowed(a, ks[i]) {
        break;
      }
      i := i + 1;
    }
    assert lastAllValidIndex <= |ks|;
    assert forall j :: 0 <= j < lastAllValidIndex ==> Allowed(a, ks[j]);
    valid := ks;
    if lastAllValidIndex != |ks| {
      var ks2 := ks[..lastAllValidIndex];
      AllowlistedKeepsValid(a, ks2);
      for j := lastAllValidIndex to |ks|
        invariant ks2 == Allowlisted(a, ks[..j])
      {
        AllowlistedSnoc(a, ks[..j], ks[j]);
        assert ks[..j + 1] == ks[..j] + [ks[j]];
        if Allowed(a, ks[j]) {
          ks2 := ks2 + [ks[j]];
        }
      }
      assert ks[..|ks|] == ks;
      valid := ks2;
    }
  }

  lemma AllowlistedKeepsValid(a: Allowlist, ks: seq<Cid>)
    requires forall j :: 0 <= j < |ks| ==> Allowed(a, ks[j])
    ensures Allowlisted(a, ks) == ks
  {
    AllowlistedIdentity(a, ks);
  }

  lemma AllowlistedSnoc(a: Allowlist, s: seq<Cid>, c: Cid)
    ensures Allowlisted(a, s + [c]) == Allowlisted(a, s) + (if Allowed(a, c) then [c] else [])
  {
    AllowlistedAppend(a, s, [c]);
    assert Allowlisted(a, [c]) == (if Allowed(a, c) then [c] else []) by {
      assert [c][1..] == [];
    }
  }
}
