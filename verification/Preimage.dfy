/**
 The texts that are hashed: the loops that build them, and that each text determines
 what it was made from.
 */
module Preimage {
  import opened Objects

  // ---- decimal numbers ----

  function Digit(d: nat): char
    requires d < 10
  {
    "0123456789"[d]
  }

  function Digits(n: nat): string {
    if n < 10 then [Digit(n)] else Digits(n / 10) + [Digit(n % 10)]
  }

  /** Decimal, with a minus sign below zero. */
  function Itoa(n: int): string {
    if n < 0 then "-" + Digits(-n) else Digits(n)
  }

  predicate IsDigit(c: char) { '0' <= c <= '9' }

  function Value(s: string): nat
    requires forall c :: c in s ==> IsDigit(c)
  {
    if s == "" then 0
    else
      assert IsDigit(s[|s| - 1]);
      10 * Value(s[..|s| - 1]) + (s[|s| - 1] as int - '0' as int)
  }

  lemma {:induction false} DigitsRead(n: nat)
    ensures Digits(n) != "" && (forall c :: c in Digits(n) ==> IsDigit(c))
    ensures Value(Digits(n)) == n
  {
    if n >= 10 {
      DigitsRead(n / 10);
      assert Digits(n)[..|Digits(n)| - 1] == Digits(n / 10);
    } else {
      assert Digits(n)[..0] == "";
    }
  }

  lemma ItoaInjective(m: int, n: int)
    ensures Itoa(m) == Itoa(n) <==> m == n
  {
    DigitsRead(if m < 0 then -m else m);
    DigitsRead(if n < 0 then -n else n);
    assert m < 0 ==> Itoa(m)[0] == '-' && Itoa(m)[1..] == Digits(-m);
    assert n < 0 ==> Itoa(n)[0] == '-' && Itoa(n)[1..] == Digits(-n);
    assert m >= 0 ==> Itoa(m)[0] in Digits(m);
    assert n >= 0 ==> Itoa(n)[0] in Digits(n);
  }

  lemma ItoaPlain(n: int)
    ensures '\0' !in Itoa(n)
  {
    DigitsRead(if n < 0 then -n else n);
  }

  // ---- delimiters ----

  /** A field that does not hold the delimiter after it ends at the first delimiter. */
  lemma Cut(c: char, a: string, restA: string, b: string, restB: string)
    requires c !in a && c !in b
    requires a + [c] + restA == b + [c] + restB
    ensures a == b && restA == restB
  {
    var t := a + [c] + restA;
    assert t[|a|] == c && t[|b|] == c;
    assert forall i :: 0 <= i < |a| ==> t[i] in a;
    assert forall i :: 0 <= i < |b| ==> t[i] in b;
    assert |a| == |b|;
    assert t[..|a|] == a && t[..|b|] == b;
    assert t[|a| + 1..] == restA && t[|b| + 1..] == restB;
  }

  // ---- migration scripts ----

  const SEPARATOR := "\0MIGRATION\0"

  function MigrationText(scripts: seq<MigrationEntry>): string {
    if scripts == [] then ""
    else MigrationText(scripts[..|scripts| - 1]) + scripts[|scripts| - 1].sql + SEPARATOR
  }

  method MigrationHash(digest: string -> string, scripts: seq<MigrationEntry>) returns (hash: string)
    ensures hash == digest(MigrationText(scripts))
  {
    var fed := "";
    for i := 0 to |scripts|
      invariant fed == MigrationText(scripts[..i])
    {
      fed := fed + scripts[i].sql;
      fed := fed + SEPARATOR;
      assert scripts[..i + 1][..i] == scripts[..i];
    }
    assert scripts[..|scripts|] == scripts;
    return digest(fed);
  }

  function Sqls(scripts: seq<MigrationEntry>): (r: seq<string>)
    ensures |r| == |scripts| && forall i :: 0 <= i < |r| ==> r[i] == scripts[i].sql
  {
    seq(|scripts|, i requires 0 <= i < |scripts| => scripts[i].sql)
  }

  lemma {:induction false} MigrationTextFront(scripts: seq<MigrationEntry>)
    requires scripts != []
    ensures MigrationText(scripts) == scripts[0].sql + SEPARATOR + MigrationText(scripts[1..])
  {
    var init := scripts[..|scripts| - 1];
    if init != [] {
      MigrationTextFront(init);
      assert init[1..] == scripts[1..][..|scripts| - 2];
    } else {
      assert MigrationText(init) == "" && MigrationText(scripts[1..]) == "";
    }
  }

  ghost predicate NulFree(scripts: seq<MigrationEntry>) {
    forall i :: 0 <= i < |scripts| ==> '\0' !in scripts[i].sql
  }

  /** The same for a delimiter of several characters, when the field does not hold its first one. */
  lemma CutAll(delimiter: string, a: string, restA: string, b: string, restB: string)
    requires delimiter != [] && delimiter[0] !in a && delimiter[0] !in b
    requires a + delimiter + restA == b + delimiter + restB
    ensures a == b && restA == restB
  {
    var c, tail := delimiter[0], delimiter[1..];
    assert delimiter == [c] + tail;
    assert a + delimiter + restA == a + [c] + (tail + restA);
    assert b + delimiter + restB == b + [c] + (tail + restB);
    Cut(c, a, tail + restA, b, tail + restB);
    assert (tail + restA)[|tail|..] == restA && (tail + restB)[|tail|..] == restB;
  }

  lemma FirstScript(a: seq<MigrationEntry>, b: seq<MigrationEntry>)
    requires a != [] && b != [] && '\0' !in a[0].sql && '\0' !in b[0].sql
    requires MigrationText(a) == MigrationText(b)
    ensures a[0].sql == b[0].sql && MigrationText(a[1..]) == MigrationText(b[1..])
  {
    MigrationTextFront(a);
    MigrationTextFront(b);
    CutAll(SEPARATOR, a[0].sql, MigrationText(a[1..]), b[0].sql, MigrationText(b[1..]));
  }

  /** Lists of scripts without NUL have the same text exactly if they hold the same scripts. */
  lemma {:induction false} MigrationTextUnique(a: seq<MigrationEntry>, b: seq<MigrationEntry>)
    requires NulFree(a) && NulFree(b)
    ensures MigrationText(a) == MigrationText(b) <==> Sqls(a) == Sqls(b)
    decreases |a| + |b|
  {
    if a != [] { MigrationTextFront(a); }
    if b != [] { MigrationTextFront(b); }
    if a != [] && b != [] {
      MigrationTextUnique(a[1..], b[1..]);
      assert Sqls(a) == [a[0].sql] + Sqls(a[1..]) && Sqls(b) == [b[0].sql] + Sqls(b[1..]);
      assert Sqls(a)[1..] == Sqls(a[1..]) && Sqls(b)[1..] == Sqls(b[1..]);
      if MigrationText(a) == MigrationText(b) {
        FirstScript(a, b);
      }
    }
  }

  /** Without that guard: a script that contains the separator reads as two scripts. */
  lemma SeparatorInScript(before: string, after: string, name: string)
    ensures MigrationText([MigrationEntry(name, before + SEPARATOR + after)])
         == MigrationText([MigrationEntry(name, before), MigrationEntry(name, after)])
  {
    var one := [MigrationEntry(name, before + SEPARATOR + after)];
    var two := [MigrationEntry(name, before), MigrationEntry(name, after)];
    MigrationTextFront(one);
    MigrationTextFront(two);
    MigrationTextFront(two[1..]);
    assert one[1..] == [] && two[1..][1..] == [];
  }

  function BatchHeader(index: nat, name: string): string { "-- migration " + Itoa(index) + ": " + name + "\n" }

  function BatchText(scripts: seq<MigrationEntry>): string {
    if scripts == [] then ""
    else
      var n := |scripts| - 1;
      BatchText(scripts[..n]) + BatchHeader(n, scripts[n].name) + scripts[n].sql + "\n\n"
  }

  /**
   What the batch is, script by script: up to script `i` it is the batch of the first `i`
   scripts, a comment line with the number and the name, the SQL, and a blank line; and
   the whole batch goes on from there.
   */
  lemma {:induction false} BatchAt(scripts: seq<MigrationEntry>, i: nat)
    requires i < |scripts|
    ensures BatchText(scripts[..0]) == "" && BatchText(scripts[..|scripts|]) == BatchText(scripts)
    ensures BatchText(scripts[..i + 1])
         == BatchText(scripts[..i]) + "-- migration " + Itoa(i) + ": " + scripts[i].name + "\n" + scripts[i].sql + "\n\n"
    ensures BatchText(scripts[..i + 1]) <= BatchText(scripts)
  {
    assert scripts[..|scripts|] == scripts;
    assert scripts[..i + 1][..i] == scripts[..i];
    BatchGrows(scripts, i + 1);
  }

  lemma {:induction false} BatchGrows(scripts: seq<MigrationEntry>, i: nat)
    requires i <= |scripts|
    ensures BatchText(scripts[..i]) <= BatchText(scripts)
  {
    hide BatchHeader;
    if i == |scripts| {
      assert scripts[..i] == scripts;
    } else {
      var n := |scripts| - 1;
      BatchGrows(scripts[..n], i);
      assert scripts[..n][..i] == scripts[..i];
      assert BatchText(scripts[..n]) <= BatchText(scripts);
    }
  }

  /** Decimal text: the sign, then digits that read back as the number, without a zero in front. */
  lemma {:induction false} ItoaReads(n: int)
    ensures n < 0 ==> Itoa(n) != "" && Itoa(n)[0] == '-'
    ensures var text := if n < 0 then Itoa(n)[1..] else Itoa(n);
      && text != "" && (forall c :: c in text ==> IsDigit(c)) && Value(text) == (if n < 0 then -n else n)
      && (|text| > 1 ==> text[0] != '0')
  {
    var m := if n < 0 then -n else n;
    DigitsRead(m);
    NoLeadingZero(m);
    assert n < 0 ==> Itoa(n)[1..] == Digits(m);
  }

  lemma {:induction false} NoLeadingZero(n: nat)
    ensures Digits(n) != "" && (n > 0 ==> Digits(n)[0] != '0')
  {
    if n >= 10 {
      NoLeadingZero(n / 10);
    }
  }

  method BatchSQL(scripts: seq<MigrationEntry>) returns (batch: string)
    ensures batch == BatchText(scripts)
  {
    hide BatchHeader;
    batch := "";
    for i := 0 to |scripts|
      invariant batch == BatchText(scripts[..i])
    {
      batch := batch + BatchHeader(i, scripts[i].name);
      batch := batch + scripts[i].sql;
      batch := batch + "\n\n";
      assert scripts[..i + 1][..i] == scripts[..i];
    }
    assert scripts[..|scripts|] == scripts;
  }

  // ---- Project sync hashes ----

  datatype Login = Login(dbName: string, user: string, host: string, port: int, password: string)

  const VERSION_TAG := "supabase-password-sync-v2\0"

  function PasswordText(c: Login): string {
    VERSION_TAG + (c.dbName + "\0" + (c.user + "\0" + (c.host + "\0" + (Itoa(c.port) + "\0" + c.password))))
  }

  function PasswordSyncHash(digest: string -> string, c: Login): string { digest(PasswordText(c)) }

  function JwtText(digest: string -> string, c: Login, exp: int): string {
    PasswordSyncHash(digest, c) + "\0" + Itoa(exp)
  }

  function JWTSyncHash(digest: string -> string, c: Login, exp: int): string { digest(JwtText(digest, c, exp)) }

  method ComputePasswordSyncHash(digest: string -> string, c: Login) returns (hash: string)
    ensures hash == PasswordSyncHash(digest, c)
  {
    var fed := VERSION_TAG;
    fed := fed + c.dbName;
    fed := fed + "\0";
    fed := fed + c.user;
    fed := fed + "\0";
    fed := fed + c.host;
    fed := fed + "\0";
    fed := fed + Itoa(c.port);
    fed := fed + "\0";
    fed := fed + c.password;
    assert fed == PasswordText(c);
    return digest(fed);
  }

  method ComputeJWTSyncHash(digest: string -> string, c: Login, exp: int) returns (hash: string)
    ensures hash == JWTSyncHash(digest, c, exp)
  {
    var fed := ComputePasswordSyncHash(digest, c);
    fed := fed + "\0";
    fed := fed + Itoa(exp);
    return digest(fed);
  }

  predicate FieldsNulFree(c: Login) { '\0' !in c.dbName && '\0' !in c.user && '\0' !in c.host }

  lemma PasswordTextUnique(a: Login, b: Login)
    requires FieldsNulFree(a) && FieldsNulFree(b)
    ensures PasswordText(a) == PasswordText(b) <==> a == b
  {
    if PasswordText(a) == PasswordText(b) {
      assert PasswordText(a)[|VERSION_TAG|..] == PasswordText(b)[|VERSION_TAG|..];
      var port := (c: Login) => Itoa(c.port) + "\0" + c.password;
      var host := (c: Login) => c.host + "\0" + port(c);
      var user := (c: Login) => c.user + "\0" + host(c);
      Cut('\0', a.dbName, user(a), b.dbName, user(b));
      Cut('\0', a.user, host(a), b.user, host(b));
      Cut('\0', a.host, port(a), b.host, port(b));
      ItoaPlain(a.port);
      ItoaPlain(b.port);
      Cut('\0', Itoa(a.port), a.password, Itoa(b.port), b.password);
      ItoaInjective(a.port, b.port);
    }
  }

  /** Without that guard: a NUL moves between two fields. */
  lemma NulMovesBetweenFields(c: Login)
    ensures PasswordText(c.(dbName := c.dbName + "\0" + c.user, user := c.host, host := Itoa(c.port), port := 0, password := "p"))
         == PasswordText(c.(password := "0\0p"))
  {
    var a := c.(dbName := c.dbName + "\0" + c.user, user := c.host, host := Itoa(c.port), port := 0, password := "p");
    var b := c.(password := "0\0p");
    assert Itoa(0) == "0";
    assert PasswordText(a) == VERSION_TAG + c.dbName + "\0" + c.user + "\0" + c.host + "\0" + Itoa(c.port) + "\0" + "0" + "\0" + "p";
    assert PasswordText(b) == VERSION_TAG + c.dbName + "\0" + c.user + "\0" + c.host + "\0" + Itoa(c.port) + "\0" + "0\0p";
    assert "0" + "\0" + "p" == "0\0p";
  }

  ghost predicate Collision(digest: string -> string, x: string, y: string) { x != y && digest(x) == digest(y) }

  /** Equal JWT hashes mean equal connection data, password and expiry, or a collision of the digest. */
  lemma JWTSyncHashUnique(digest: string -> string, size: nat, a: Login, expA: int, b: Login, expB: int)
    requires forall x :: |digest(x)| == size
    requires FieldsNulFree(a) && FieldsNulFree(b)
    requires JWTSyncHash(digest, a, expA) == JWTSyncHash(digest, b, expB)
    ensures (a == b && expA == expB)
         || Collision(digest, PasswordText(a), PasswordText(b))
         || Collision(digest, JwtText(digest, a, expA), JwtText(digest, b, expB))
  {
    var ha, hb := PasswordSyncHash(digest, a), PasswordSyncHash(digest, b);
    if JwtText(digest, a, expA) == JwtText(digest, b, expB) {
      assert JwtText(digest, a, expA)[..size] == ha && JwtText(digest, b, expB)[..size] == hb;
      assert JwtText(digest, a, expA)[size + 1..] == Itoa(expA) && JwtText(digest, b, expB)[size + 1..] == Itoa(expB);
      ItoaInjective(expA, expB);
      PasswordTextUnique(a, b);
    }
  }

  // ---- Secret and ConfigMap data ----

  type Data = map<string, string>

  predicate Less(a: string, b: string) {
    b != [] && (a == [] || a[0] < b[0] || (a[0] == b[0] && Less(a[1..], b[1..])))
  }

  lemma {:induction false} LessTotal(a: string, b: string)
    ensures a == b || Less(a, b) || Less(b, a)
    ensures !(Less(a, b) && Less(b, a)) && !Less(a, a)
    decreases |a|
  {
    if a != [] {
      LessTotal(a[1..], a[1..]);
      if b != [] && a[0] == b[0] {
        LessTotal(a[1..], b[1..]);
        assert a == [a[0]] + a[1..] && b == [b[0]] + b[1..];
      }
    }
  }

  lemma {:induction false} LessTransitive(a: string, b: string, c: string)
    requires Less(a, b) && Less(b, c)
    ensures Less(a, c)
  {
    if a != [] && a[0] == b[0] && b[0] == c[0] {
      LessTransitive(a[1..], b[1..], c[1..]);
    }
  }

  ghost predicate Ascending(keys: seq<string>) {
    forall i, j :: 0 <= i < j < |keys| ==> Less(keys[i], keys[j])
  }

  ghost predicate Lists(keys: seq<string>, data: Data) {
    Ascending(keys) && forall k :: k in keys <==> k in data
  }

  function Insert(key: string, keys: seq<string>): (r: seq<string>)
    ensures |r| == |keys| + 1
  {
    if keys == [] || Less(key, keys[0]) then [key] + keys else [keys[0]] + Insert(key, keys[1..])
  }

  function Sort(keys: seq<string>): (r: seq<string>)
    ensures |r| == |keys|
  {
    if keys == [] then [] else Insert(keys[|keys| - 1], Sort(keys[..|keys| - 1]))
  }

  lemma {:induction false} InsertAscends(key: string, keys: seq<string>)
    requires Ascending(keys) && key !in keys
    ensures Ascending(Insert(key, keys)) && forall k :: k in Insert(key, keys) <==> k == key || k in keys
  {
    if keys != [] {
      LessTotal(key, keys[0]);
      if Less(key, keys[0]) {
        forall j | 1 <= j < |keys| ensures Less(key, keys[j]) {
          LessTransitive(key, keys[0], keys[j]);
        }
      } else {
        InsertAscends(key, keys[1..]);
        var rest := Insert(key, keys[1..]);
        assert keys == [keys[0]] + keys[1..];
        forall j | 0 <= j < |rest| ensures Less(keys[0], rest[j]) {
          assert rest[j] in rest;
          if rest[j] != key {
            var i :| 0 <= i < |keys[1..]| && keys[1..][i] == rest[j];
            assert keys[i + 1] == rest[j];
          }
        }
      }
    }
  }

  lemma {:induction false} SortAscends(keys: seq<string>)
    requires forall i, j :: 0 <= i < j < |keys| ==> keys[i] != keys[j]
    ensures Ascending(Sort(keys)) && forall k :: k in Sort(keys) <==> k in keys
  {
    if keys != [] {
      var init := keys[..|keys| - 1];
      SortAscends(init);
      InsertAscends(keys[|keys| - 1], Sort(init));
      assert keys == init + [keys[|keys| - 1]];
    }
  }

  /** There is one way to list a set of keys in ascending order. */
  lemma {:induction false} ListingUnique(a: seq<string>, b: seq<string>)
    requires Ascending(a) && Ascending(b) && forall k :: k in a <==> k in b
    ensures a == b
  {
    assert a == [] <==> b == [] by {
      assert |a| > 0 ==> a[0] in a;
      assert |b| > 0 ==> b[0] in b;
    }
    if a != [] {
      assert a[0] in b && b[0] in a;
      LessTotal(a[0], b[0]);
      assert a[0] == b[0];
      forall k ensures k in a[1..] <==> k in b[1..] {
        Rest(a, k);
        Rest(b, k);
      }
      ListingUnique(a[1..], b[1..]);
      assert a == [a[0]] + a[1..] && b == [b[0]] + b[1..];
    }
  }

  lemma Rest(keys: seq<string>, k: string)
    requires keys != [] && Ascending(keys)
    ensures k in keys[1..] <==> k in keys && k != keys[0]
  {
    LessTotal(keys[0], keys[0]);
    if k in keys && k != keys[0] {
      var i :| 0 <= i < |keys| && keys[i] == k;
      assert keys[1..][i - 1] == k;
    }
    if k in keys[1..] {
      var i :| 0 <= i < |keys[1..]| && keys[1..][i] == k;
      assert keys[i + 1] == k;
    }
  }

  function TextOf(keys: seq<string>, data: Data): string
    requires forall k :: k in keys ==> k in data
  {
    if keys == [] then ""
    else TextOf(keys[..|keys| - 1], data) + keys[|keys| - 1] + "=" + data[keys[|keys| - 1]] + "\n"
  }

  /** What is hashed for a Secret or a ConfigMap: whatever order the keys are collected in, it is this text. */
  ghost predicate DataText(data: Data, text: string) {
    exists keys :: Lists(keys, data) && text == TextOf(keys, data)
  }

  method CollectKeys(data: Data) returns (keys: seq<string>)
    ensures forall k :: k in keys <==> k in data
    ensures forall i, j :: 0 <= i < j < |keys| ==> keys[i] != keys[j]
  {
    keys := [];
    var left := data.Keys;
    while left != {}
      invariant left <= data.Keys
      invariant forall k :: k in keys <==> k in data && k !in left
      invariant forall i, j :: 0 <= i < j < |keys| ==> keys[i] != keys[j]
      decreases left
    {
      var k :| k in left;
      keys, left := keys + [k], left - {k};
    }
  }

  method DataHash(digest: string -> string, data: Data) returns (hash: string)
    ensures exists text :: DataText(data, text) && hash == digest(text)
  {
    var collected := CollectKeys(data);
    SortAscends(collected);
    var keys := Sort(collected);
    var fed := "";
    for i := 0 to |keys|
      invariant forall k :: k in keys <==> k in data
      invariant fed == TextOf(keys[..i], data)
    {
      fed := fed + keys[i];
      fed := fed + "=";
      fed := fed + data[keys[i]];
      fed := fed + "\n";
      assert keys[..i + 1][..i] == keys[..i];
    }
    assert keys[..|keys|] == keys;
    assert Lists(keys, data);
    assert DataText(data, fed);
    return digest(fed);
  }

  lemma {:induction false} TextFront(keys: seq<string>, data: Data)
    requires keys != [] && forall k :: k in keys ==> k in data
    ensures TextOf(keys, data) == keys[0] + "=" + (data[keys[0]] + "\n" + TextOf(keys[1..], data))
  {
    var init := keys[..|keys| - 1];
    if init != [] {
      TextFront(init, data);
      assert init[1..] == keys[1..][..|keys| - 2];
      assert keys[1..][|keys| - 2] == keys[|keys| - 1];
    } else {
      assert TextOf(init, data) == "" && TextOf(keys[1..], data) == "";
    }
  }

  /** Keys hold no `=`, as the API demands, and values no newline. */
  predicate Plain(data: Data) {
    forall k | k in data :: '=' !in k && '\n' !in data[k]
  }

  lemma {:induction false} TextDecodes(a: seq<string>, x: Data, b: seq<string>, y: Data)
    requires Plain(x) && Plain(y)
    requires (forall k :: k in a ==> k in x) && (forall k :: k in b ==> k in y)
    requires TextOf(a, x) == TextOf(b, y)
    ensures a == b && forall k :: k in a ==> x[k] == y[k]
    decreases |a| + |b|
  {
    if a != [] { TextFront(a, x); }
    if b != [] { TextFront(b, y); }
    if a != [] && b != [] {
      var valueA, valueB := x[a[0]] + "\n" + TextOf(a[1..], x), y[b[0]] + "\n" + TextOf(b[1..], y);
      Cut('=', a[0], valueA, b[0], valueB);
      Cut('\n', x[a[0]], TextOf(a[1..], x), y[b[0]], TextOf(b[1..], y));
      TextDecodes(a[1..], x, b[1..], y);
      assert a == [a[0]] + a[1..] && b == [b[0]] + b[1..];
    }
  }

  /** A text has one source: two plain data maps have a text in common exactly if they are equal. */
  lemma DataTextUnique(x: Data, y: Data, s: string, t: string)
    requires Plain(x) && Plain(y) && DataText(x, s) && DataText(y, t)
    ensures s == t <==> x == y
  {
    var a :| Lists(a, x) && s == TextOf(a, x);
    var b :| Lists(b, y) && t == TextOf(b, y);
    if s == t {
      TextDecodes(a, x, b, y);
    }
    if x == y {
      ListingUnique(a, b);
    }
  }

  /** Every map has exactly one text, so the hash does not depend on the iteration order. */
  lemma DataTextDetermined(data: Data, s: string, t: string)
    requires DataText(data, s) && DataText(data, t)
    ensures s == t
  {
    var a :| Lists(a, data) && s == TextOf(a, data);
    var b :| Lists(b, data) && t == TextOf(b, data);
    ListingUnique(a, b);
  }

  lemma TextOfOne(k: string, data: Data)
    requires k in data
    ensures TextOf([k], data) == k + "=" + data[k] + "\n"
  {
    assert TextOf([k][..0], data) == "";
  }

  lemma TextOfTwo(k: string, k': string, data: Data)
    requires k in data && k' in data
    ensures TextOf([k, k'], data) == k + "=" + data[k] + "\n" + k' + "=" + data[k'] + "\n"
  {
    TextOfOne(k, data);
    assert [k, k'][..1] == [k];
  }

  /** Without that guard: a newline in a value reads as a further key. */
  lemma NewlineInValue(k: string, v: string, k': string, v': string)
    requires Less(k, k')
    ensures var text := k + "=" + v + "\n" + k' + "=" + v' + "\n";
      DataText(map[k := v, k' := v'], text) && DataText(map[k := v + "\n" + k' + "=" + v'], text)
  {
    LessTotal(k, k');
    var two, one := map[k := v, k' := v'], map[k := v + "\n" + k' + "=" + v'];
    TextOfTwo(k, k', two);
    TextOfOne(k, one);
    assert Lists([k, k'], two) && Lists([k], one);
    hide TextOf, Less;
  }
}
