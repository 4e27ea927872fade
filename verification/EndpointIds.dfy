/**
 Decimal integers as Go prints and parses them, and the webhook endpoint ids
 ("instance:41", "global:41") built from them.
 */
module EndpointIds {
  import opened Results

  const INT64_MAX: int := 0x7FFF_FFFF_FFFF_FFFF
  const TARGET_INSTANCE := "instance"
  const TARGET_GLOBAL := "global"

  predicate IsDigit(c: char) {
    '0' <= c <= '9'
  }

  function DigitChar(d: nat): (c: char)
    requires d < 10
    ensures IsDigit(c) && c as int - '0' as int == d
  {
    '0' + d as char
  }

  function FormatNat(n: nat): (s: string)
    ensures s != "" && forall i :: 0 <= i < |s| ==> IsDigit(s[i])
  {
    if n < 10 then [DigitChar(n)] else FormatNat(n / 10) + [DigitChar(n % 10)]
  }

  /** strconv.FormatInt(n, 10). */
  function FormatInt(n: int): string {
    if n < 0 then "-" + FormatNat(-n) else FormatNat(n)
  }

  /** The value of a non-empty run of digits, None when a character is not one. */
  function ParseNat(s: string): Option<nat> {
    if s == "" || !IsDigit(s[|s| - 1]) then None
    else
      var d := s[|s| - 1] as int - '0' as int;
      if |s| == 1 then Some(d)
      else
        match ParseNat(s[..|s| - 1])
        case None => None
        case Some(high) => Some(10 * high + d)
  }

  predicate IsSigned(s: string) {
    s != "" && (s[0] == '-' || s[0] == '+')
  }

  predicate IsInt64(n: int) {
    -INT64_MAX - 1 <= n <= INT64_MAX
  }

  /** strconv.ParseInt(s, 10, 64): an optional sign, digits, and a range check. */
  function ParseInt64(s: string): Option<int> {
    match ParseNat(if IsSigned(s) then s[1..] else s)
    case None => None
    case Some(n) =>
      var value: int := if IsSigned(s) && s[0] == '-' then 0 - (n as int) else n as int;
      if IsInt64(value) then Some(value) else None
  }

  lemma {:induction false} ParseNatInvertsFormat(n: nat)
    ensures ParseNat(FormatNat(n)) == Some(n)
  {
    if n >= 10 {
      ParseNatInvertsFormat(n / 10);
      var s := FormatNat(n);
      assert s[..|s| - 1] == FormatNat(n / 10);
    }
  }

  lemma ParseInvertsFormat(n: int)
    ensures ParseInt64(FormatInt(n)) ==
            if -9_223_372_036_854_775_808 <= n <= 9_223_372_036_854_775_807 then Some(n) else None
    ensures FormatInt(n)[0] == '-' <==> n < 0
  {
    var s := FormatInt(n);
    var magnitude := if n < 0 then -n else n;
    var digits := FormatNat(magnitude);
    ParseNatInvertsFormat(magnitude);
    if n < 0 {
      assert s[0] == '-' && s[1..] == digits;
    } else {
      assert IsDigit(digits[0]) && digits[0] != '-';
    }
    assert ParseNat(if IsSigned(s) then s[1..] else s) == Some(magnitude);
  }

  datatype Endpoint = Endpoint(target: string, instanceId: int)

  function DeliveryEndpointId(target: string, instanceId: int): string {
    target + ":" + FormatInt(instanceId)
  }

  /** strings.Cut(s, ":"): the text before and after the first colon. */
  function CutAtColon(s: string): (r: Option<(string, string)>)
    ensures r.Some? ==> s == r.value.0 + ":" + r.value.1 && ':' !in r.value.0
    ensures r.None? ==> ':' !in s
  {
    if s == "" then None
    else if s[0] == ':' then Some(("", s[1..]))
    else
      match CutAtColon(s[1..])
      case None => None
      case Some((before, after)) => Some(([s[0]] + before, after))
  }

  function ParseDeliveryEndpointId(id: string): Option<Endpoint> {
    match CutAtColon(id)
    case None => None
    case Some((target, instance)) =>
      if target != TARGET_INSTANCE && target != TARGET_GLOBAL then None
      else
        match ParseInt64(instance)
        case None => None
        case Some(n) => if n <= 0 then None else Some(Endpoint(target, n))
  }

  predicate IsEndpoint(e: Endpoint) {
    (e.target == TARGET_INSTANCE || e.target == TARGET_GLOBAL) && 0 < e.instanceId <= INT64_MAX
  }

  lemma {:induction false} CutAtFirstColon(before: string, after: string)
    requires ':' !in before
    ensures CutAtColon(before + ":" + after) == Some((before, after))
  {
    var s := before + ":" + after;
    if before == "" {
      assert s[1..] == after;
    } else {
      CutAtFirstColon(before[1..], after);
      assert s[1..] == before[1..] + ":" + after;
      assert s[0] != ':';
      assert [s[0]] + before[1..] == before;
    }
  }

  /** A printed id parses back exactly for the endpoints the module uses, and is refused for all others. */
  lemma ParseInvertsEndpointId(e: Endpoint)
    ensures ParseDeliveryEndpointId(DeliveryEndpointId(e.target, e.instanceId)) ==
            (if IsEndpoint(e) then Some(e) else None)
  {
    var printed := DeliveryEndpointId(e.target, e.instanceId);
    var text := FormatInt(e.instanceId);
    if ':' !in e.target {
      ParseInvertsFormat(e.instanceId);
      CutAtFirstColon(e.target, text);
      assert CutAtColon(printed) == Some((e.target, text));
    } else {
      // The first colon is inside the target, so what follows it is no number.
      var cut := CutAtColon(e.target).value;
      var rest := cut.1 + ":" + text;
      CutAtFirstColon(cut.0, rest);
      assert printed == cut.0 + ":" + rest;
      ColonIsNoNumber(rest, |cut.1|);
      assert !IsEndpoint(e) by { assert ':' !in TARGET_INSTANCE && ':' !in TARGET_GLOBAL; }
    }
  }

  lemma {:induction false} ColonIsNoDigitRun(s: string, i: nat)
    requires i < |s| && s[i] == ':'
    ensures ParseNat(s) == None
  {
    if i < |s| - 1 {
      ColonIsNoDigitRun(s[..|s| - 1], i);
    }
  }

  lemma ColonIsNoNumber(s: string, i: nat)
    requires i < |s| && s[i] == ':'
    ensures ParseInt64(s) == None
  {
    if s[0] == '-' || s[0] == '+' {
      ColonIsNoDigitRun(s[1..], i - 1);
    } else {
      ColonIsNoDigitRun(s, i);
    }
  }

  /** What the ids look like, and what an accepted one names: one of the two kinds and a positive 64-bit number. */
  lemma IdsSpelledOut(instanceId: int, id: string)
    requires 0 < instanceId <= 9_223_372_036_854_775_807
    ensures ParseDeliveryEndpointId("instance:" + FormatInt(instanceId)) == Some(Endpoint("instance", instanceId))
    ensures ParseDeliveryEndpointId("global:" + FormatInt(instanceId)) == Some(Endpoint("global", instanceId))
    ensures DeliveryEndpointId("instance", 41) == "instance:41"
    ensures ParseDeliveryEndpointId(id).Some? ==>
              var e := ParseDeliveryEndpointId(id).value;
              (e.target == "instance" || e.target == "global") && 0 < e.instanceId <= 9_223_372_036_854_775_807
  {
    ParseInvertsEndpointId(Endpoint("instance", instanceId));
    ParseInvertsEndpointId(Endpoint("global", instanceId));
    assert "instance:" == "instance" + ":" && "global:" == "global" + ":";
    assert FormatNat(4) == "4" && FormatNat(41) == FormatNat(4) + [DigitChar(1)];
  }

  /** Different endpoints never share an id. */
  lemma EndpointIdsAreDistinct(a: Endpoint, b: Endpoint)
    requires IsEndpoint(a) && IsEndpoint(b)
    requires DeliveryEndpointId(a.target, a.instanceId) == DeliveryEndpointId(b.target, b.instanceId)
    ensures a == b
  {
    ParseInvertsEndpointId(a);
    ParseInvertsEndpointId(b);
  }

  /** A printed number begins with a digit, which is zero only for zero itself. */
  lemma {:induction false} PrintedStart(n: nat)
    ensures IsDigit(FormatNat(n)[0]) && (FormatNat(n)[0] == '0' <==> n == 0)
  {
    if n >= 10 {
      PrintedStart(n / 10);
    }
  }

  /** A run of digits that does not begin with zero is what its value prints as. */
  lemma {:induction false} FormatInvertsParse(s: string)
    requires ParseNat(s).Some? && s[0] != '0'
    ensures ParseNat(s).value > 0 && FormatNat(ParseNat(s).value) == s
  {
    var n, d := |s| - 1, s[|s| - 1] as int - '0' as int;
    if n > 0 {
      FormatInvertsParse(s[..n]);
      var high := ParseNat(s[..n]).value;
      assert (10 * high + d) / 10 == high && (10 * high + d) % 10 == d;
      assert s == s[..n] + [s[n]];
    }
  }

  /**
   An accepted id is the one its endpoint prints as exactly when its number is
   written plainly: without a sign and without a leading zero.
   */
  lemma WhenAcceptedIdsArePrinted(id: string)
    requires ParseDeliveryEndpointId(id).Some?
    ensures var e, rest := ParseDeliveryEndpointId(id).value, CutAtColon(id).value.1;
            DeliveryEndpointId(e.target, e.instanceId) == id <==> rest != "" && !IsSigned(rest) && rest[0] != '0'
  {
    var e, rest := ParseDeliveryEndpointId(id).value, CutAtColon(id).value.1;
    assert id == e.target + ":" + rest;
    var text := FormatInt(e.instanceId);
    PrintedStart(e.instanceId);
    if rest != "" && !IsSigned(rest) && rest[0] != '0' {
      FormatInvertsParse(rest);
    } else {
      assert rest != text;
      assert id[|e.target| + 1..] == rest && DeliveryEndpointId(e.target, e.instanceId)[|e.target| + 1..] == text;
    }
  }

  lemma {:induction false} LeadingZero(s: string)
    requires ParseNat(s).Some?
    ensures ParseNat("0" + s) == ParseNat(s)
  {
    var t := "0" + s;
    assert t[|t| - 1] == s[|s| - 1];
    if |s| == 1 {
      assert t[..1] == "0" && ParseNat("0") == Some(0);
    } else {
      LeadingZero(s[..|s| - 1]);
      assert t[..|t| - 1] == "0" + s[..|s| - 1];
    }
  }

  lemma SignedSpelling(target: string, n: nat)
    requires (target == TARGET_INSTANCE || target == TARGET_GLOBAL) && 0 < n <= INT64_MAX
    ensures ParseDeliveryEndpointId(target + ":+" + FormatInt(n)) == Some(Endpoint(target, n))
  {
    var text := FormatInt(n);
    ParseNatInvertsFormat(n);
    assert ("+" + text)[1..] == text;
    CutAtFirstColon(target, "+" + text);
    assert target + ":+" + text == target + ":" + ("+" + text);
  }

  lemma ZeroSpelling(target: string, n: nat)
    requires (target == TARGET_INSTANCE || target == TARGET_GLOBAL) && 0 < n <= INT64_MAX
    ensures ParseDeliveryEndpointId(target + ":0" + FormatInt(n)) == Some(Endpoint(target, n))
  {
    var text := FormatInt(n);
    ParseNatInvertsFormat(n);
    LeadingZero(text);
    CutAtFirstColon(target, "0" + text);
    assert target + ":0" + text == target + ":" + ("0" + text);
    assert !IsSigned("0" + text);
  }

  /** Both kinds of other spelling are accepted: a plus sign, and a leading zero. */
  lemma ParsingIsNotInjective(e: Endpoint)
    requires IsEndpoint(e)
    ensures ParseDeliveryEndpointId(e.target + ":+" + FormatInt(e.instanceId)) == Some(e)
    ensures ParseDeliveryEndpointId(e.target + ":0" + FormatInt(e.instanceId)) == Some(e)
  {
    SignedSpelling(e.target, e.instanceId);
    ZeroSpelling(e.target, e.instanceId);
  }
}
