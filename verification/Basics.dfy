// Shared result types and the JSON values that the runner reads from the
// control plane and from its own tables.

module Basics {

  datatype Option<+T> = None | Some(value: T)

  datatype Result<+T, +E> = Success(value: T) | Failure(error: E) {
    predicate IsFailure() {
      Failure?
    }

    function PropagateFailure<U>(): Result<U, E>
      requires Failure?
    {
      Failure(error)
    }

    function Extract(): T
      requires Success?
    {
      value
    }
  }

  /// The largest value of the source's `u64`.
  const MAX_U64: nat := 0xffff_ffff_ffff_ffff

  /// Seconds since 1970 as the source keeps them.
  type Instant = n: nat | n <= MAX_U64

  predicate IsHex(c: char) {
    '0' <= c <= '9' || 'a' <= c <= 'f' || 'A' <= c <= 'F'
  }

  predicate IsHexText(s: string) {
    forall c <- s :: IsHex(c)
  }

  /// The hyphenated and the plain spelling of a UUID.
  predicate IsUuid(s: string) {
    if |s| == 32 then
      IsHexText(s)
    else
      && |s| == 36
      && s[8] == s[13] == s[18] == s[23] == '-'
      && IsHexText(s[..8] + s[9..13] + s[14..18] + s[19..23] + s[24..])
  }

  /// Digit by digit: hyphens in their four places, or nowhere, and digits everywhere else.
  lemma UuidByPlaces(s: string)
    ensures IsUuid(s) <==>
      || (|s| == 32 && forall i :: 0 <= i < 32 ==> s[i] in "0123456789abcdefABCDEF")
      || (|s| == 36 && forall i :: 0 <= i < 36 ==>
            if i in {8, 13, 18, 23} then s[i] == '-' else s[i] in "0123456789abcdefABCDEF")
  {
    forall c: char ensures IsHex(c) <==> c in "0123456789abcdefABCDEF" {
      HexDigits(c);
    }
    if |s| == 36 {
      var t := s[..8] + s[9..13] + s[14..18] + s[19..23] + s[24..];
      assert forall i :: 0 <= i < 8 ==> t[i] == s[i];
      assert forall i :: 9 <= i < 13 ==> t[i - 1] == s[i];
      assert forall i :: 14 <= i < 18 ==> t[i - 2] == s[i];
      assert forall i :: 19 <= i < 23 ==> t[i - 3] == s[i];
      assert forall i :: 24 <= i < 36 ==> t[i - 4] == s[i];
      assert forall k :: 0 <= k < 32 ==> t[k] in t;
      assert forall c <- t :: exists i :: 0 <= i < 36 && i !in {8, 13, 18, 23} && s[i] == c;
    }
    hide IsHex;
  }

  lemma HexDigits(c: char)
    ensures IsHex(c) <==> c in "0123456789abcdefABCDEF"
  {
    var digits := "0123456789abcdefABCDEF";
    assert forall i :: 0 <= i < 10 ==> digits[i] as int == '0' as int + i;
    assert forall i :: 10 <= i < 16 ==> digits[i] as int == 'a' as int + i - 10;
    assert forall i :: 16 <= i < 22 ==> digits[i] as int == 'A' as int + i - 16;
    if '0' <= c <= '9' {
      assert digits[c as int - '0' as int] == c;
    } else if 'a' <= c <= 'f' {
      assert digits[10 + c as int - 'a' as int] == c;
    } else if 'A' <= c <= 'F' {
      assert digits[16 + c as int - 'A' as int] == c;
    }
  }
}

module Json {
  import opened Basics

  /// The field names that the modelled code reads.
  datatype Name =
    | AccessToken | RefreshToken | ExpiresInSeconds | ExpiresAt
    | BootstrapGrant | Canceled | Device | Child | Runner | Id | Revoked | TransactionId | AuthorizationPath | Status
    | OrganizationId | RunnerId | DeviceId | DelegationId | Scopes | TokenScopes | ScopeContext
    | GrantedScopes | EffectiveTokenScopes | RequestedScopes | RefreshRequired
    | Other(text: string)

  datatype Value =
    | Null
    | Bool(flag: bool)
    | Number(number: int)
    | Text(text: string)
    | List(items: seq<Value>)
    | Object(fields: map<Name, Value>)

  /// `value.get(name)`: absent on anything but an object that has the field.
  function Get(value: Value, name: Name): Option<Value> {
    if value.Object? && name in value.fields then Some(value.fields[name]) else None
  }

  /// `value[name]`: an absent field reads as null.
  function At(value: Value, name: Name): Value {
    if value.Object? && name in value.fields then value.fields[name] else Null
  }

  function AsText(value: Value): Option<string> {
    if value.Text? then Some(value.text) else None
  }

  function AsU64(value: Value): Option<Instant> {
    if value.Number? && 0 <= value.number <= MAX_U64 then Some(value.number) else None
  }

  /// A required, non-empty text field.
  function Field(value: Value, name: Name): Option<string> {
    match AsText(At(value, name))
    case Some(text) => if text == "" then None else Some(text)
    case None => None
  }
}
