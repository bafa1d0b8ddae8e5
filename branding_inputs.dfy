/** The checkout branding page's small string rules: the hex colour check of
    each colour field, the two-digit `toHex` of the colour picker, the
    checkout editor link, and the single-key updates of the value records. */
module BrandingInputs {
  import opened Js

  // ------------------------------------------------------------ hex colours

  predicate IsHexDigit(c: char) {
    '0' <= c <= '9' || 'a' <= c <= 'f' || 'A' <= c <= 'F'
  }

  predicate AllHex(t: string) {
    forall k :: 0 <= k < |t| ==> IsHexDigit(t[k])
  }

  /** `([0-9A-Fa-f]{3}){n}`, matched in full against `t`. */
  predicate Groups(t: string, n: nat)
    decreases n
  {
    if n == 0 then t == ""
    else |t| >= 3 && IsHexDigit(t[0]) && IsHexDigit(t[1]) && IsHexDigit(t[2]) && Groups(t[3..], n - 1)
  }

  /** `/^$|^#([0-9A-Fa-f]{3}){1,2}$/.test(s)`, alternative by alternative. */
  predicate HexPattern(s: string) {
    s == "" || (|s| > 0 && s[0] == '#' && (Groups(s[1..], 1) || Groups(s[1..], 2)))
  }

  lemma {:induction false} GroupsIff(t: string, n: nat)
    ensures Groups(t, n) <==> |t| == 3 * n && AllHex(t)
    decreases n
  {
    if n > 0 {
      if |t| >= 3 {
        GroupsIff(t[3..], n - 1);
        assert forall k :: 3 <= k < |t| ==> t[k] == t[3..][k - 3];
      }
    }
  }

  /** The pattern accepts exactly the empty string and "#" followed by three
      or six hex digits, in either case. */
  lemma HexPatternIff(s: string)
    ensures HexPattern(s) <==> s == "" || (|s| in {4, 7} && s[0] == '#' && AllHex(s[1..]))
  {
    if |s| > 0 {
      GroupsIff(s[1..], 1);
      GroupsIff(s[1..], 2);
    }
  }

  /** The field shows "Invalid hex color" for a non-empty value the pattern
      refuses. */
  predicate ShowsError(fieldValue: string) {
    !HexPattern(fieldValue) && fieldValue != ""
  }

  /** The swatch shows the typed colour only when it is valid and non-empty;
      otherwise the disabled surface. */
  function Swatch(fieldValue: string): Option<string> {
    if HexPattern(fieldValue) && fieldValue != "" then Some(fieldValue) else None
  }

  /** A value either shows an error, or is empty, or colours the swatch,
      and exactly one of these. */
  lemma ErrorOrSwatch(fieldValue: string)
    ensures ShowsError(fieldValue) <==> fieldValue != "" && Swatch(fieldValue).None?
    ensures Swatch(fieldValue).Some? <==> !ShowsError(fieldValue) && fieldValue != ""
    ensures ShowsError(fieldValue) <==>
      (fieldValue != "" && !(|fieldValue| in {4, 7} && fieldValue[0] == '#' && AllHex(fieldValue[1..])))
  {
    HexPatternIff(fieldValue);
  }

  // ---------------------------------------------------------------- toHex

  function LowerHexDigit(d: nat): (c: char)
    requires d < 16
    ensures IsHexDigit(c) && !('A' <= c <= 'F')
  {
    if d < 10 then ('0' as int + d) as char else ('a' as int + d - 10) as char
  }

  function DigitValue(c: char): (d: nat)
    requires IsHexDigit(c)
    ensures d < 16
  {
    if '0' <= c <= '9' then c as int - '0' as int
    else if 'a' <= c <= 'f' then c as int - 'a' as int + 10
    else c as int - 'A' as int + 10
  }

  /** `n.toString(16)` for a non-negative integer: lowercase, no leading zero. */
  function ToBase16(n: nat): (s: string)
    ensures |s| >= 1 && AllHex(s)
    ensures n < 16 <==> |s| == 1
    decreases n
  {
    if n < 16 then [LowerHexDigit(n)] else ToBase16(n / 16) + [LowerHexDigit(n % 16)]
  }

  /** The value of a string of hex digits. */
  function HexValue(s: string): nat
    requires AllHex(s)
    decreases |s|
  {
    if |s| == 0 then 0 else 16 * HexValue(s[..|s| - 1]) + DigitValue(s[|s| - 1])
  }

  lemma {:induction false} ToBase16ReadsBack(n: nat)
    ensures HexValue(ToBase16(n)) == n
    decreases n
  {
    var s := ToBase16(n);
    if n >= 16 {
      ToBase16ReadsBack(n / 16);
      assert s[..|s| - 1] == ToBase16(n / 16);
    }
  }

  /** `toHex` on the rounded channel `n == Math.round(x * 255)`: one leading
      zero for a single digit. */
  function ToHex(n: nat): string {
    var hex := ToBase16(n);
    if |hex| == 1 then "0" + hex else hex
  }

  /** A channel 0..255 gives two lowercase hex digits that read back as it. */
  lemma ToHexTwoDigits(n: nat)
    requires n < 256
    ensures |ToHex(n)| == 2 && AllHex(ToHex(n))
    ensures forall k :: 0 <= k < 2 ==> !('A' <= ToHex(n)[k] <= 'F')
    ensures HexValue(ToHex(n)) == n
  {
    ToBase16ReadsBack(n);
    var hex := ToBase16(n);
    if n >= 16 {
      assert hex == ToBase16(n / 16) + [LowerHexDigit(n % 16)];
      assert |ToBase16(n / 16)| == 1;
    } else {
      assert ("0" + hex)[..1] == "0";
    }
  }

  /** The colour the picker writes back always passes the field's check. */
  lemma PickedColourIsValid(r: nat, g: nat, b: nat)
    requires r < 256 && g < 256 && b < 256
    ensures HexPattern("#" + ToHex(r) + ToHex(g) + ToHex(b))
    ensures !ShowsError("#" + ToHex(r) + ToHex(g) + ToHex(b))
  {
    ToHexTwoDigits(r);
    ToHexTwoDigits(g);
    ToHexTwoDigits(b);
    var s := "#" + ToHex(r) + ToHex(g) + ToHex(b);
    assert s[1..] == ToHex(r) + ToHex(g) + ToHex(b);
    HexPatternIff(s);
  }

  // ---------------------------------------------------------- editor link

  const DomainSuffix := ".myshopify.com"
  const ProfilePrefix := "gid://shopify/CheckoutProfile/"

  /** `handleViewPage`: nothing without a shop, else the checkout editor URL
      built with the first occurrence of each decoration removed. */
  function ViewPageUrl(shop: Option<string>, checkoutId: string): (url: Option<string>)
    ensures shop.None? || shop == Some("") <==> url.None?
  {
    if shop.None? || shop.value == "" then None
    else
      var shopName := ReplaceFirst(shop.value, DomainSuffix, "");
      var profileId := ReplaceFirst(checkoutId, ProfilePrefix, "");
      Some("https://admin.shopify.com/store/" + shopName + "/settings/checkout/editor/profiles/" + profileId + "?page=checkout")
  }

  lemma StripsPrefix(p: string, rest: string)
    ensures ReplaceFirst(p + rest, p, "") == rest
  {
    assert StartsWith(p + rest, p);
    assert (p + rest)[|p|..] == rest;
  }

  /** A shop name without dots is followed by the suffix only once. */
  lemma StripsDomain(name: string)
    requires '.' !in name
    ensures ReplaceFirst(name + DomainSuffix, DomainSuffix, "") == name
  {
    var s := name + DomainSuffix;
    assert OccursAt(s, DomainSuffix, |name|) by {
      assert s[|name|..|name| + |DomainSuffix|] == DomainSuffix;
    }
    forall j | 0 <= j < |name| ensures !OccursAt(s, DomainSuffix, j) {
      assert s[j] == name[j];
    }
    var k := IndexOf(s, DomainSuffix);
    assert k == Some(|name|);
    assert s[..|name|] == name;
  }

  /** For a myshopify domain and a checkout profile gid, the link names the
      store and the numeric profile. */
  lemma ViewPageUrlNamesStoreAndProfile(name: string, id: string)
    requires name != "" && '.' !in name
    ensures ViewPageUrl(Some(name + DomainSuffix), ProfilePrefix + id)
      == Some("https://admin.shopify.com/store/" + name + "/settings/checkout/editor/profiles/" + id + "?page=checkout")
  {
    StripsDomain(name);
    StripsPrefix(ProfilePrefix, id);
  }

  // ------------------------------------------------------- record updates

  /** `handleColorChange(field, value)` and `handleInputChange(field, value)`:
      `{...prev, [field]: value}`. */
  function SetField<V>(prev: map<string, V>, field: string, value: V): (r: map<string, V>)
    ensures r.Keys == prev.Keys + {field}
    ensures r[field] == value
    ensures forall k :: k in prev && k != field ==> r[k] == prev[k]
  {
    prev[field := value]
  }

  /** Setting a key back to its old value restores the record, and updates
      of different keys commute. */
  lemma {:induction false} SetFieldLaws<V>(prev: map<string, V>, f: string, g: string, a: V, b: V)
    ensures f in prev ==> SetField(SetField(prev, f, a), f, prev[f]) == prev
    ensures f != g ==> SetField(SetField(prev, f, a), g, b) == SetField(SetField(prev, g, b), f, a)
  {
    if f in prev {
      var r := SetField(SetField(prev, f, a), f, prev[f]);
      assert r.Keys == prev.Keys;
      forall k | k in prev ensures r[k] == prev[k] {
      }
    }
    if f != g {
      var l := SetField(SetField(prev, f, a), g, b);
      var r := SetField(SetField(prev, g, b), f, a);
      assert l.Keys == r.Keys;
      forall k | k in l ensures l[k] == r[k] {
      }
    }
  }
}
