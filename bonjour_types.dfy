/** Bonjour service names used by the apps, and the normalisation of a
    service domain typed by the user or stored in preferences.  The
    multicast DNS domain is `local.` (section 3 of RFC 6762); a domain is
    always kept in its fully qualified, lower-case form with a trailing dot. */
module BonjourTypes {
  import opened Wrappers
  import opened Strings

  const BridgeServiceType: string := "_clawdbot-bridge._tcp"
  const BridgeServiceDomain: string := "local."
  const WideAreaBridgeServiceDomain: string := "clawdbot.internal."
  const BridgeServiceDomains: seq<string> := [BridgeServiceDomain, WideAreaBridgeServiceDomain]

  /** `ClawdbotBonjour.normalizeServiceDomain`: nil or blank gives `local.`;
      `local` or `local.` in any case gives `local.`; anything else is
      trimmed, lower-cased and given a trailing dot when it lacks one. */
  function NormalizeServiceDomain(raw: Option<string>): (r: string)
    ensures IsBlank(raw.GetOr("")) ==> r == BridgeServiceDomain
    ensures IsLocal(ToLower(Trim(raw.GetOr("")))) ==> r == BridgeServiceDomain
    ensures IsLower(r) && EndsWith(r, ".")
    ensures Trim(r) == r
    ensures !IsBlank(raw.GetOr("")) && !IsLocal(ToLower(Trim(raw.GetOr("")))) ==>
              r == WithTrailingDot(ToLower(Trim(raw.GetOr(""))))
  {
    var trimmed := Trim(raw.GetOr(""));
    if trimmed == [] then
      LocalIsNormal();
      BridgeServiceDomain
    else
      var lower := ToLower(trimmed);
      if IsLocal(lower) then
        LocalIsNormal();
        BridgeServiceDomain
      else
        TrimIdempotent(raw.GetOr(""));
        DottedLowerIsTrimmed(trimmed);
        WithTrailingDot(lower)
  }

  lemma LocalIsNormal()
    ensures IsLower(BridgeServiceDomain) && EndsWith(BridgeServiceDomain, ".")
    ensures Trim(BridgeServiceDomain) == BridgeServiceDomain
  {
    TrimOfTrimmed(BridgeServiceDomain);
  }

  predicate IsLocal(lower: string) {
    lower == "local" || lower == "local."
  }

  /** `s` itself when it already ends with a dot, `s + "."` otherwise. */
  function WithTrailingDot(s: string): (r: string)
    ensures r != [] && r[|r| - 1] == '.' && EndsWith(r, ".")
    ensures |s| <= |r| <= |s| + 1 && r[..|s|] == s
    ensures EndsWith(s, ".") ==> r == s
  {
    if EndsWith(s, ".") then s else s + "."
  }

  lemma DottedLowerIsTrimmed(trimmed: string)
    requires trimmed != [] && Trim(trimmed) == trimmed
    ensures IsLower(WithTrailingDot(ToLower(trimmed)))
    ensures Trim(WithTrailingDot(ToLower(trimmed))) == WithTrailingDot(ToLower(trimmed))
  {
    var lower := ToLower(trimmed);
    var r := WithTrailingDot(lower);
    assert r[0] == lower[0] == LowerChar(trimmed[0]);
    TrimOfTrimmed(r);
    forall i | 0 <= i < |r| ensures !('A' <= r[i] <= 'Z') {
      if i < |lower| { assert r[i] == r[..|lower|][i] == lower[i]; }
    }
  }

  /** A domain that is already trimmed, lower-case and dot-terminated comes back unchanged. */
  lemma NormalizedFormUnchanged(d: string)
    requires d == Trim(d) && IsLower(d) && d != "" && d[|d| - 1] == '.'
    ensures NormalizeServiceDomain(Some(d)) == d
  {
    ToLowerFacts(d);
    assert ToLower(d) == d;
    assert EndsWith(d, ".") by { assert d[|d| - 1..] == [d[|d| - 1]]; }
    assert WithTrailingDot(d) == d;
    assert !IsBlank(d) by { assert !IsWhitespace(d[|d| - 1]); }
    if IsLocal(d) {
      assert d != "local" by { assert "local"[4] != '.'; }
    }
  }

  /** Normalisation is idempotent. */
  lemma NormalizeIdempotent(raw: Option<string>)
    ensures NormalizeServiceDomain(Some(NormalizeServiceDomain(raw))) == NormalizeServiceDomain(raw)
  {
    var r := NormalizeServiceDomain(raw);
    assert r != "" by { assert |r| >= 1; }
    NormalizedFormUnchanged(r);
  }
}
