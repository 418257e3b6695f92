/** The VNPAY helpers of config/vnpay.js: parameter sorting, the unencoded
    `key=value&...` sign data, the HMAC-SHA512 signature (an uninterpreted function
    here), the amount scaling by 100 and the response-code messages. */
module VnPay {
  import opened Store
  import opened Numbers

  // ---------------------------------------------------------------------------
  // The default order of `Array.prototype.sort` on strings: lexicographic by character.

  predicate StrLe(a: string, b: string)
  {
    |a| == 0 || (|b| > 0 && (a[0] < b[0] || (a[0] == b[0] && StrLe(a[1..], b[1..]))))
  }

  lemma {:induction false} StrLeTotal(a: string, b: string)
    ensures StrLe(a, b) || StrLe(b, a)
  {
    if |a| > 0 && |b| > 0 && a[0] == b[0] {
      StrLeTotal(a[1..], b[1..]);
    }
  }

  lemma {:induction false} StrLeAntisymmetric(a: string, b: string)
    requires StrLe(a, b) && StrLe(b, a)
    ensures a == b
  {
    if |a| > 0 && |b| > 0 {
      StrLeAntisymmetric(a[1..], b[1..]);
      assert a == [a[0]] + a[1..] && b == [b[0]] + b[1..];
    }
  }

  lemma {:induction false} StrLeTransitive(a: string, b: string, c: string)
    requires StrLe(a, b) && StrLe(b, c)
    ensures StrLe(a, c)
  {
    if |a| > 0 && |b| > 0 && |c| > 0 && a[0] == b[0] && b[0] == c[0] {
      StrLeTransitive(a[1..], b[1..], c[1..]);
    }
  }

  predicate Sorted(s: seq<string>)
  {
    forall i, j :: 0 <= i < j < |s| ==> StrLe(s[i], s[j])
  }

  /** Places `k` before the first key it does not exceed. */
  function Insert(k: string, s: seq<string>): seq<string>
  {
    if s == [] then [k]
    else if StrLe(k, s[0]) then [k] + s
    else [s[0]] + Insert(k, s[1..])
  }

  lemma {:induction false} InsertSorted(k: string, s: seq<string>)
    requires Sorted(s)
    ensures Sorted(Insert(k, s)) && multiset(Insert(k, s)) == multiset(s) + multiset{k}
  {
    if s == [] {
    } else if StrLe(k, s[0]) {
      InsertFront(k, s);
    } else {
      SortedTail(s);
      InsertSorted(k, s[1..]);
      assert s == [s[0]] + s[1..];
      StrLeTotal(k, s[0]);
      InsertBehind(s[0], k, s[1..], Insert(k, s[1..]));
    }
  }

  lemma InsertFront(k: string, s: seq<string>)
    requires Sorted(s) && s != [] && StrLe(k, s[0])
    ensures Sorted([k] + s)
  {
    forall j | 0 < j < |[k] + s| ensures StrLe(([k] + s)[0], ([k] + s)[j]) {
      if j > 1 {
        StrLeTransitive(k, s[0], s[j - 1]);
      }
    }
  }

  lemma InsertBehind(h: string, k: string, rest: seq<string>, tail: seq<string>)
    requires Sorted([h] + rest) && StrLe(h, k) && Sorted(tail)
    requires multiset(tail) == multiset(rest) + multiset{k}
    ensures Sorted([h] + tail)
  {
    forall j | 0 <= j < |tail| ensures StrLe(h, tail[j]) {
      assert tail[j] in multiset(tail);
      if tail[j] != k {
        assert tail[j] in multiset(rest);
        var m :| 0 <= m < |rest| && rest[m] == tail[j];
        assert StrLe(([h] + rest)[0], ([h] + rest)[m + 1]);
      }
    }
    var r := [h] + tail;
    forall i, j | 0 <= i < j < |r| ensures StrLe(r[i], r[j]) {
      if i == 0 {
        assert r[j] == tail[j - 1];
      } else {
        assert r[i] == tail[i - 1] && r[j] == tail[j - 1];
      }
    }
  }

  /** The object's keys in ascending code-unit order. */
  function SortKeys(s: seq<string>): seq<string>
  {
    if s == [] then [] else Insert(s[0], SortKeys(s[1..]))
  }

  /** The sorted keys are in order and are the same keys. */
  lemma {:induction false} SortKeysSorted(s: seq<string>)
    ensures Sorted(SortKeys(s)) && multiset(SortKeys(s)) == multiset(s)
  {
    if s != [] {
      SortKeysSorted(s[1..]);
      InsertSorted(s[0], SortKeys(s[1..]));
      assert s == [s[0]] + s[1..];
    }
  }

  lemma SortedTail(x: seq<string>)
    requires Sorted(x) && x != []
    ensures Sorted(x[1..])
  {
    forall i, j | 0 <= i < j < |x| - 1 ensures StrLe(x[1..][i], x[1..][j]) {
      assert x[1..][i] == x[i + 1] && x[1..][j] == x[j + 1];
    }
  }

  /** The first key of a sorted sequence is the least of its keys. */
  lemma SortedHeadLeast(x: seq<string>, k: string)
    requires Sorted(x) && k in x
    ensures StrLe(x[0], k)
  {
    var i :| 0 <= i < |x| && x[i] == k;
    if i == 0 {
      StrLeTotal(k, k);
    }
  }

  /** There is only one sorted arrangement of a collection of keys: sorting forgets
      the order the keys came in. */
  lemma {:induction false} SortedUnique(x: seq<string>, y: seq<string>)
    requires Sorted(x) && Sorted(y) && multiset(x) == multiset(y)
    ensures x == y
  {
    if x == [] || y == [] {
      assert |x| == |multiset(x)| && |y| == |multiset(y)|;
    } else {
      assert x[0] in multiset(y) && y[0] in multiset(x);
      SortedHeadLeast(y, x[0]);
      SortedHeadLeast(x, y[0]);
      StrLeAntisymmetric(x[0], y[0]);
      assert x == [x[0]] + x[1..] && y == [y[0]] + y[1..];
      assert multiset(x[1..]) == multiset(x) - multiset{x[0]};
      assert multiset(y[1..]) == multiset(y) - multiset{y[0]};
      SortedTail(x);
      SortedTail(y);
      SortedUnique(x[1..], y[1..]);
    }
  }

  lemma SortKeysPermutation(a: seq<string>, b: seq<string>)
    requires multiset(a) == multiset(b)
    ensures SortKeys(a) == SortKeys(b)
  {
    SortKeysSorted(a);
    SortKeysSorted(b);
    SortedUnique(SortKeys(a), SortKeys(b));
  }

  // ---------------------------------------------------------------------------
  // Parameter objects

  /** A JavaScript object of string values: its own keys in insertion order and the
      value of each. */
  datatype Obj = Obj(keys: seq<string>, values: map<string, string>)

  /** The listed keys are exactly the keys holding a value. */
  ghost predicate WellFormed(o: Obj)
  {
    forall k :: k in o.values <==> k in o.keys
  }

  /** `obj[key]`, with `None` for undefined. */
  function Field(o: Obj, k: string): Option<string>
  {
    if k in o.values then Some(o.values[k]) else None
  }

  /** The keys of an object literal, in the order written. */
  function KeysOf(pairs: seq<(string, string)>): (keys: seq<string>)
    ensures |keys| == |pairs| && forall i :: 0 <= i < |pairs| ==> keys[i] == pairs[i].0
  {
    if pairs == [] then [] else KeysOf(pairs[..|pairs| - 1]) + [pairs[|pairs| - 1].0]
  }

  /** The values of an object literal: a later pair for the same key wins. */
  function ValuesOf(pairs: seq<(string, string)>): map<string, string>
  {
    if pairs == [] then map[] else ValuesOf(pairs[..|pairs| - 1])[pairs[|pairs| - 1].0 := pairs[|pairs| - 1].1]
  }

  function ObjOf(pairs: seq<(string, string)>): Obj
  {
    Obj(KeysOf(pairs), ValuesOf(pairs))
  }

  lemma {:induction false} ObjOfWellFormed(pairs: seq<(string, string)>)
    ensures WellFormed(ObjOf(pairs))
  {
    if pairs != [] {
      var init := pairs[..|pairs| - 1];
      ObjOfWellFormed(init);
      assert KeysOf(pairs) == KeysOf(init) + [pairs[|pairs| - 1].0];
    }
  }

  /** A key not written again after position `i` keeps the value written at `i`. */
  lemma {:induction false} ObjOfField(pairs: seq<(string, string)>, i: int)
    requires 0 <= i < |pairs|
    requires forall j :: i < j < |pairs| ==> pairs[j].0 != pairs[i].0
    ensures Field(ObjOf(pairs), pairs[i].0) == Some(pairs[i].1)
  {
    var init := pairs[..|pairs| - 1];
    if i < |pairs| - 1 {
      assert init[i] == pairs[i];
      ObjOfField(init, i);
    }
  }

  lemma ObjOfMissing(pairs: seq<(string, string)>, k: string)
    requires forall i :: 0 <= i < |pairs| ==> pairs[i].0 != k
    ensures Field(ObjOf(pairs), k) == None
  {
    ObjOfWellFormed(pairs);
  }

  /** The object sortObject builds: the same key/value pairs, keys in sorted order. */
  function SortedObj(o: Obj): Obj
  {
    Obj(SortKeys(o.keys), o.values)
  }

  /** The sorted keys of a well-formed object are exactly the keys holding a value. */
  lemma SortedKeysHoldValues(obj: Obj)
    requires WellFormed(obj)
    ensures forall k :: k in SortKeys(obj.keys) <==> k in obj.values
  {
    SortKeysSorted(obj.keys);
    forall k ensures k in SortKeys(obj.keys) <==> k in obj.values {
      assert k in SortKeys(obj.keys) <==> k in multiset(SortKeys(obj.keys));
      assert k in obj.keys <==> k in multiset(obj.keys);
    }
  }

  /** The values copied once the first `i` keys have been visited. */
  function Filled(keys: seq<string>, values: map<string, string>, i: nat): map<string, string>
    requires i <= |keys|
  {
    if i == 0 then map[]
    else if keys[i - 1] in values then Filled(keys, values, i - 1)[keys[i - 1] := values[keys[i - 1]]]
    else Filled(keys, values, i - 1)
  }

  lemma {:induction false} FilledAt(keys: seq<string>, values: map<string, string>, i: nat)
    requires i <= |keys|
    ensures forall k :: k in Filled(keys, values, i) <==> k in keys[..i] && k in values
    ensures forall k :: k in Filled(keys, values, i) ==> Filled(keys, values, i)[k] == values[k]
  {
    if i > 0 {
      FilledAt(keys, values, i - 1);
      assert keys[..i] == keys[..i - 1] + [keys[i - 1]];
    }
  }

  /** The `forEach` of sortObject: each listed key, in order, is added to a fresh
      object with the value it has in `values`. */
  method CopyFields(keys: seq<string>, values: map<string, string>) returns (r: Obj)
    requires forall i :: 0 <= i < |keys| ==> keys[i] in values
    ensures r.keys == keys && r.values == Filled(keys, values, |keys|)
  {
    r := Obj([], map[]);
    for i := 0 to |keys|
      invariant r.keys == keys[..i]
      invariant r.values == Filled(keys, values, i)
    {
      assert keys[..i + 1] == keys[..i] + [keys[i]];
      r := Obj(r.keys + [keys[i]], r.values[keys[i] := values[keys[i]]]);
    }
    assert keys[..|keys|] == keys;
  }

  /** sortObject: a fresh object filled, key by sorted key, from the given one. */
  method SortObject(obj: Obj) returns (sorted: Obj)
    requires WellFormed(obj)
    ensures sorted == SortedObj(obj)
    ensures Sorted(sorted.keys) && multiset(sorted.keys) == multiset(obj.keys)
    ensures forall k :: Field(sorted, k) == Field(obj, k)
  {
    var keys := SortKeys(obj.keys);
    SortKeysSorted(obj.keys);
    SortedKeysHoldValues(obj);
    sorted := CopyFields(keys, obj.values);
    FilledAt(keys, obj.values, |keys|);
    assert keys[..|keys|] == keys;
    assert sorted.values == obj.values;
  }

  /** `qs.stringify(obj, { encode: false })`: `key=value` pairs joined by `&`, in key order. */
  function QueryString(keys: seq<string>, values: map<string, string>): string
  {
    if keys == [] then ""
    else
      var pair := keys[0] + "=" + (if keys[0] in values then values[keys[0]] else "");
      if |keys| == 1 then pair else pair + "&" + QueryString(keys[1..], values)
  }

  /** The object without the key `k`; the remaining keys keep their order. */
  function Delete(o: Obj, k: string): (r: Obj)
    ensures multiset(r.keys) == multiset(o.keys)[k := 0]
    ensures r.values == o.values - {k}
  {
    Obj(Without(o.keys, k), o.values - {k})
  }

  function Without(s: seq<string>, k: string): (r: seq<string>)
    ensures multiset(r) == multiset(s)[k := 0]
  {
    if s == [] then []
    else
      assert s == [s[0]] + s[1..];
      if s[0] == k then Without(s[1..], k) else [s[0]] + Without(s[1..], k)
  }

  const SecureHash := "vnp_SecureHash"
  const SecureHashType := "vnp_SecureHashType"

  /** The parameters verifyReturnUrl signs: the received ones without the two hash keys. */
  function Unsigned(o: Obj): (r: Obj)
    ensures SecureHash !in r.values && SecureHashType !in r.values
    ensures forall k :: k != SecureHash && k != SecureHashType ==> Field(r, k) == Field(o, k)
  {
    Delete(Delete(o, SecureHash), SecureHashType)
  }

  /** HMAC-SHA512 of the sign data under the secret, as a hex string: `hmac(data, key)`. */
  type Hmac = (string, string) -> string

  /** The signature of a parameter object: the HMAC of its sorted, unencoded query string. */
  function Signature(o: Obj, secret: string, hmac: Hmac): string
  {
    var s := SortedObj(o);
    hmac(QueryString(s.keys, s.values), secret)
  }

  // ---------------------------------------------------------------------------
  // The amount as the parameters carry it

  /** `vnp_Params['vnp_Amount'] / 100`, `None` standing for NaN. */
  function AmountOf(minor: Option<string>): Option<real>
  {
    if minor.None? then None
    else match JsNumber(minor.value)
      case Some(n) => Some(n as real / 100.0)
      case None => None
  }

  /** Scaling an integer amount by 100 for the gateway and back by 100 on return
      reproduces the amount exactly. */
  lemma AmountRoundTrip(amount: int)
    ensures AmountOf(Some(NumberString(amount * 100))) == Some(amount as real)
  {
    NumberRoundTrip(amount * 100);
  }

  // ---------------------------------------------------------------------------
  // createPaymentUrl

  datatype Config = Config(tmnCode: Option<string>, hashSecret: Option<string>, url: string, returnUrl: string)

  const TmnPlaceholder := "your_tmn_code"
  const SecretPlaceholder := "your_hash_secret"

  datatype UrlResult = PaymentUrl(url: string) | ConfigError(message: string)

  /** A configured value: present, non-empty, and not the placeholder from the setup notes. */
  predicate Configured(v: Option<string>, placeholder: string)
  {
    Truthy(v) && v.value != placeholder
  }

  /** The pairs of the parameter object createPaymentUrl builds, in the order written. */
  function PaymentPairs(c: Config, orderId: int, amount: int, orderInfo: string, ipAddr: string, createDate: string, expireDate: string): seq<(string, string)>
    requires c.tmnCode.Some?
  {
    [("vnp_Version", "2.1.0"), ("vnp_Command", "pay"), ("vnp_TmnCode", c.tmnCode.value), ("vnp_Locale", "vn"),
     ("vnp_CurrCode", "VND"), ("vnp_TxnRef", NumberString(orderId)), ("vnp_OrderInfo", orderInfo),
     ("vnp_OrderType", "other"), ("vnp_Amount", NumberString(amount * 100)), ("vnp_ReturnUrl", c.returnUrl),
     ("vnp_IpAddr", ipAddr), ("vnp_CreateDate", createDate), ("vnp_ExpireDate", expireDate)]
  }

  function PaymentParams(c: Config, orderId: int, amount: int, orderInfo: string, ipAddr: string, createDate: string, expireDate: string): Obj
    requires c.tmnCode.Some?
  {
    ObjOf(PaymentPairs(c, orderId, amount, orderInfo, ipAddr, createDate, expireDate))
  }

  /** The payment parameters are well formed, carry the order id and the amount times
      100 as decimal strings, and hold neither hash key. */
  lemma PaymentParamsFacts(c: Config, orderId: int, amount: int, orderInfo: string, ipAddr: string, createDate: string, expireDate: string)
    requires c.tmnCode.Some?
    ensures var p := PaymentParams(c, orderId, amount, orderInfo, ipAddr, createDate, expireDate);
      WellFormed(p) && SecureHash !in p.values && SecureHashType !in p.values &&
      Field(p, "vnp_Amount") == Some(NumberString(amount * 100)) &&
      Field(p, "vnp_TxnRef") == Some(NumberString(orderId))
  {
    var pairs := PaymentPairs(c, orderId, amount, orderInfo, ipAddr, createDate, expireDate);
    ObjOfWellFormed(pairs);
    ObjOfField(pairs, 8);
    ObjOfField(pairs, 5);
    ObjOfMissing(pairs, SecureHash);
    ObjOfMissing(pairs, SecureHashType);
  }

  /** Parameters as they go into the URL: sorted, with the signature of the sorted
      parameters appended as `vnp_SecureHash`. */
  function Signed(p: Obj, secret: string, hmac: Hmac): Obj
  {
    var s := SortedObj(p);
    Obj(s.keys + [SecureHash], s.values[SecureHash := Signature(p, secret, hmac)])
  }

  /** createPaymentUrl: refuses an unconfigured terminal code or secret; otherwise sorts
      the parameters, signs their query string and appends the signature. The dates are
      inputs (they come from the clock). */
  method CreatePaymentUrl(c: Config, orderId: int, amount: int, orderInfo: string, ipAddr: string, createDate: string, expireDate: string, hmac: Hmac)
    returns (r: UrlResult)
    ensures !Configured(c.tmnCode, TmnPlaceholder) ==> r == ConfigError("VNPAY_TMN_CODE chưa được cấu hình trong .env")
    ensures Configured(c.tmnCode, TmnPlaceholder) && !Configured(c.hashSecret, SecretPlaceholder) ==> r == ConfigError("VNPAY_HASH_SECRET chưa được cấu hình trong .env")
    ensures Configured(c.tmnCode, TmnPlaceholder) && Configured(c.hashSecret, SecretPlaceholder) ==>
      var s := Signed(PaymentParams(c, orderId, amount, orderInfo, ipAddr, createDate, expireDate), c.hashSecret.value, hmac);
      r == PaymentUrl(c.url + "?" + QueryString(s.keys, s.values))
  {
    if !Configured(c.tmnCode, TmnPlaceholder) {
      return ConfigError("VNPAY_TMN_CODE chưa được cấu hình trong .env");
    }
    if !Configured(c.hashSecret, SecretPlaceholder) {
      return ConfigError("VNPAY_HASH_SECRET chưa được cấu hình trong .env");
    }
    var params := PaymentParams(c, orderId, amount, orderInfo, ipAddr, createDate, expireDate);
    ObjOfWellFormed(PaymentPairs(c, orderId, amount, orderInfo, ipAddr, createDate, expireDate));
    params := SortObject(params);
    var signData := QueryString(params.keys, params.values);
    var signed := hmac(signData, c.hashSecret.value);
    params := Obj(params.keys + [SecureHash], params.values[SecureHash := signed]);
    return PaymentUrl(c.url + "?" + QueryString(params.keys, params.values));
  }

  // ---------------------------------------------------------------------------
  // verifyReturnUrl

  datatype VerifyResult =
    | Unverified
    | Verified(orderId: Option<string>, amount: Option<real>, responseCode: Option<string>,
               transactionNo: Option<string>, bankCode: Option<string>, payDate: Option<string>)

  /** What verifyReturnUrl reports for received parameters: the fields of the payment
      when the received `vnp_SecureHash` equals the signature of the other parameters,
      and nothing but the failure otherwise. Without a secret the HMAC throws, which is
      caught as a failure. */
  function Verification(o: Obj, secret: Option<string>, hmac: Hmac): (r: VerifyResult)
    ensures r.Verified? <==> secret.Some? && Field(o, SecureHash) == Some(Signature(Unsigned(o), secret.value, hmac))
    ensures r.Verified? ==> r.orderId == Field(o, "vnp_TxnRef") && r.responseCode == Field(o, "vnp_ResponseCode")
    ensures r.Verified? ==> r.amount == AmountOf(Field(o, "vnp_Amount"))
  {
    var u := Unsigned(o);
    if secret.None? || Field(o, SecureHash) != Some(Signature(u, secret.value, hmac)) then Unverified
    else Verified(Field(u, "vnp_TxnRef"), AmountOf(Field(u, "vnp_Amount")), Field(u, "vnp_ResponseCode"),
                  Field(u, "vnp_TransactionNo"), Field(u, "vnp_BankCode"), Field(u, "vnp_PayDate"))
  }

  /** The request's query object, which verifyReturnUrl edits in place. */
  class Query {
    var params: Obj

    constructor (o: Obj)
      ensures params == o
    {
      params := o;
    }
  }

  /** verifyReturnUrl: removes both hash keys from the caller's object, then signs
      what is left and compares. */
  method VerifyReturnUrl(q: Query, secret: Option<string>, hmac: Hmac) returns (r: VerifyResult)
    requires WellFormed(q.params)
    modifies q
    ensures q.params == Unsigned(old(q.params))
    ensures r == Verification(old(q.params), secret, hmac)
  {
    var secureHash := Field(q.params, SecureHash);
    q.params := Delete(q.params, SecureHash);
    q.params := Delete(q.params, SecureHashType);
    if secret.None? {
      return Unverified;
    }
    assert WellFormed(q.params) by {
      forall k ensures k in q.params.values <==> k in q.params.keys {
        assert k in q.params.keys <==> k in multiset(q.params.keys);
        assert k in old(q.params).keys <==> k in multiset(old(q.params).keys);
      }
    }
    var sorted := SortObject(q.params);
    var signed := hmac(QueryString(sorted.keys, sorted.values), secret.value);
    if secureHash == Some(signed) {
      var p := q.params;
      return Verified(Field(p, "vnp_TxnRef"), AmountOf(Field(p, "vnp_Amount")), Field(p, "vnp_ResponseCode"),
                      Field(p, "vnp_TransactionNo"), Field(p, "vnp_BankCode"), Field(p, "vnp_PayDate"));
    }
    return Unverified;
  }

  /** Sign/verify round trip: parameters signed under a secret verify under the same
      secret, whatever order their keys arrive in and wherever the signature is placed,
      and a `vnp_SecureHashType` the gateway adds does not disturb it. */
  lemma SignVerifyRoundTrip(p: Obj, received: Obj, secret: string, hmac: Hmac)
    requires SecureHash !in p.values && SecureHashType !in p.values
    requires multiset(Unsigned(received).keys) == multiset(p.keys)
    requires Unsigned(received).values == p.values
    requires Field(received, SecureHash) == Some(Signature(p, secret, hmac))
    ensures Verification(received, Some(secret), hmac).Verified?
  {
    SortKeysPermutation(Unsigned(received).keys, p.keys);
  }

  lemma UnsignAppended(keys: seq<string>, values: map<string, string>, sig: string)
    requires SecureHash !in multiset(keys) && SecureHashType !in multiset(keys)
    ensures multiset(Unsigned(Obj(keys + [SecureHash], values[SecureHash := sig])).keys) == multiset(keys)
    ensures Unsigned(Obj(keys + [SecureHash], values[SecureHash := sig])).values == values - {SecureHash, SecureHashType}
  {
    var o := Obj(keys + [SecureHash], values[SecureHash := sig]);
    var once := Delete(o, SecureHash);
    assert multiset(o.keys) == multiset(keys) + multiset{SecureHash};
    assert multiset(once.keys) == multiset(keys);
  }

  /** Removing the hash keys from signed parameters gives back the parameters. */
  lemma UnsignSigned(p: Obj, secret: string, hmac: Hmac)
    requires WellFormed(p) && SecureHash !in p.values && SecureHashType !in p.values
    ensures multiset(Unsigned(Signed(p, secret, hmac)).keys) == multiset(p.keys)
    ensures Unsigned(Signed(p, secret, hmac)).values == p.values
  {
    var s := SortKeys(p.keys);
    SortKeysSorted(p.keys);
    assert SecureHash !in p.keys && SecureHashType !in p.keys;
    assert SecureHash !in multiset(s) && SecureHashType !in multiset(s);
    UnsignAppended(s, p.values, Signature(p, secret, hmac));
  }

  /** Whatever parameters are signed verify under the same secret, and verification
      reports exactly the signed parameters' fields. */
  lemma SignedVerifies(p: Obj, secret: string, hmac: Hmac)
    requires WellFormed(p) && SecureHash !in p.values && SecureHashType !in p.values
    ensures Verification(Signed(p, secret, hmac), Some(secret), hmac).Verified?
    ensures forall k :: k != SecureHash ==> Field(Signed(p, secret, hmac), k) == Field(p, k)
  {
    var u := Unsigned(Signed(p, secret, hmac));
    UnsignSigned(p, secret, hmac);
    SortKeysPermutation(u.keys, p.keys);
    assert SortedObj(u) == SortedObj(p);
    assert Signature(u, secret, hmac) == Signature(p, secret, hmac);
  }

  /** Signed parameters verify and report the order reference and the amount they carry. */
  lemma SignedReports(p: Obj, secret: string, hmac: Hmac, txnRef: string, minor: string)
    requires WellFormed(p) && SecureHash !in p.values && SecureHashType !in p.values
    requires Field(p, "vnp_TxnRef") == Some(txnRef) && Field(p, "vnp_Amount") == Some(minor)
    ensures var v := Verification(Signed(p, secret, hmac), Some(secret), hmac);
      v.Verified? && v.orderId == Some(txnRef) && v.amount == AmountOf(Some(minor))
  {
    SignedVerifies(p, secret, hmac);
  }

  /** The URL createPaymentUrl builds verifies when it comes back with the same
      parameters, and reports the order id and the amount it was built for. */
  lemma PaymentUrlVerifies(c: Config, orderId: int, amount: int, orderInfo: string, ipAddr: string, createDate: string, expireDate: string, hmac: Hmac)
    requires c.tmnCode.Some? && c.hashSecret.Some?
    ensures var v := Verification(Signed(PaymentParams(c, orderId, amount, orderInfo, ipAddr, createDate, expireDate), c.hashSecret.value, hmac), c.hashSecret, hmac);
      v.Verified? && v.orderId == Some(NumberString(orderId)) && v.amount == Some(amount as real)
  {
    var p := PaymentParams(c, orderId, amount, orderInfo, ipAddr, createDate, expireDate);
    PaymentParamsFacts(c, orderId, amount, orderInfo, ipAddr, createDate, expireDate);
    SignedReports(p, c.hashSecret.value, hmac, NumberString(orderId), NumberString(amount * 100));
    AmountRoundTrip(amount);
  }

  // ---------------------------------------------------------------------------
  // getResponseMessage

  const UnknownMessage := "Lỗi không xác định"

  const ResponseMessages: map<string, string> := map[
    "00" := "Giao dịch thành công",
    "07" := "Trừ tiền thành công. Giao dịch bị nghi ngờ (liên quan tới lừa đảo, giao dịch bất thường).",
    "09" := "Giao dịch không thành công do: Thẻ/Tài khoản của khách hàng chưa đăng ký dịch vụ InternetBanking tại ngân hàng.",
    "10" := "Giao dịch không thành công do: Khách hàng xác thực thông tin thẻ/tài khoản không đúng quá 3 lần",
    "11" := "Giao dịch không thành công do: Đã hết hạn chờ thanh toán. Xin quý khách vui lòng thực hiện lại giao dịch.",
    "12" := "Giao dịch không thành công do: Thẻ/Tài khoản của khách hàng bị khóa.",
    "13" := "Giao dịch không thành công do Quý khách nhập sai mật khẩu xác thực giao dịch (OTP).",
    "24" := "Giao dịch không thành công do: Khách hàng hủy giao dịch",
    "51" := "Giao dịch không thành công do: Tài khoản của quý khách không đủ số dư để thực hiện giao dịch.",
    "65" := "Giao dịch không thành công do: Tài khoản của Quý khách đã vượt quá hạn mức giao dịch trong ngày.",
    "75" := "Ngân hàng thanh toán đang bảo trì.",
    "79" := "Giao dịch không thành công do: KH nhập sai mật khẩu thanh toán quá số lần quy định.",
    "99" := "Các lỗi khác"]

  /** getResponseMessage: the table's message for a code the table holds as its own
      key, the fallback for every other code. Keys an object literal inherits (such as
      "constructor") are not modelled. */
  function ResponseMessage(code: Option<string>): (m: string)
    ensures code.Some? && code.value in ResponseMessages ==> m == ResponseMessages[code.value]
    ensures m == UnknownMessage <==> !(code.Some? && code.value in ResponseMessages)
  {
    if code.Some? && code.value in ResponseMessages then ResponseMessages[code.value] else UnknownMessage
  }
}
