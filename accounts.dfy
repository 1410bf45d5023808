/**
 * Account records and the password check performed when an account is loaded.
 * The digest function (SHA-512 in hexadecimal) is a parameter: all the model
 * knows of it is that it yields 128 lower-case hexadecimal digits.
 */
module Accounts {
  import opened Wrappers

  /** A row of the account table. `passhash` is "salt:hash" or a bare legacy hash. */
  datatype Account = Account(
    uid: nat,
    passhash: Option<string>,
    passalgo: string,
    username: string,
    name: string,
    mid: int,
    x: int,
    y: int,
    profile: string,               // serialized pic, home, watch and ignore lists, client settings
    tags: map<string, string>)

  /** The three answers of `load`, plus the exception it raises on a NULL hash. */
  datatype LoadResult = Authenticated | WrongPassword | NoSuchAccount | LoadFault {
    /** The answers `login` turns into an error message and False. */
    predicate Refusal() {
      this == WrongPassword || this == NoSuchAccount
    }
  }

  const HexDigits: string := "0123456789abcdef"

  predicate IsHexDigest(h: string) {
    |h| == 128 && forall i :: 0 <= i < |h| ==> h[i] in HexDigits
  }

  /** What the model assumes of the digest function. */
  ghost predicate IsDigest(hash: string -> string) {
    forall s :: IsHexDigest(hash(s))
  }

  /** Python's `str.split(sep)`: the pieces between occurrences of `sep`. */
  function Split(s: string, sep: char): (parts: seq<string>)
    ensures |parts| >= 1
    decreases |s|
  {
    if |s| == 0 then [""]
    else
      var rest := Split(s[1..], sep);
      if s[0] == sep then [""] + rest
      else [[s[0]] + rest[0]] + rest[1..]
  }

  /** The inverse of Split: the pieces glued back with `sep`. */
  function Join(parts: seq<string>, sep: char): string
    requires |parts| >= 1
    decreases |parts|
  {
    if |parts| == 1 then parts[0] else parts[0] + [sep] + Join(parts[1..], sep)
  }

  lemma {:induction false} SplitJoin(s: string, sep: char)
    ensures Join(Split(s, sep), sep) == s
    ensures forall i :: 0 <= i < |Split(s, sep)| ==> sep !in Split(s, sep)[i]
    decreases |s|
  {
    if |s| > 0 {
      SplitJoin(s[1..], sep);
      var rest := Split(s[1..], sep);
      if s[0] == sep {
        assert Split(s, sep) == [""] + rest;
        assert s == [sep] + s[1..];
      } else {
        var parts := Split(s, sep);
        assert parts == [[s[0]] + rest[0]] + rest[1..];
        if |rest| == 1 {
          assert s == [s[0]] + s[1..];
        } else {
          assert parts[1..] == rest[1..];
          assert Join(rest, sep) == rest[0] + [sep] + Join(rest[1..], sep);
          assert s == [s[0]] + s[1..];
        }
        forall i | 0 <= i < |parts| ensures sep !in parts[i] {
          if i == 0 {
            assert sep !in rest[0];
          } else {
            assert parts[i] == rest[i];
          }
        }
      }
    }
  }

  /** A separator-free string is a single piece. */
  lemma {:induction false} SplitNoSeparator(s: string, sep: char)
    requires sep !in s
    ensures Split(s, sep) == [s]
    decreases |s|
  {
    if |s| > 0 {
      SplitNoSeparator(s[1..], sep);
      assert [s[0]] + s[1..] == s;
    }
  }

  /** A separator-free prefix followed by `sep` is the first piece. */
  lemma {:induction false} SplitAfterPrefix(a: string, sep: char, b: string)
    requires sep !in a
    ensures Split(a + [sep] + b, sep) == [a] + Split(b, sep)
    decreases |a|
  {
    if |a| == 0 {
      assert a + [sep] + b == [sep] + b;
      assert ([sep] + b)[1..] == b;
    } else {
      SplitAfterPrefix(a[1..], sep, b);
      assert (a + [sep] + b)[1..] == a[1..] + [sep] + b;
      assert [a[0]] + a[1..] == a;
    }
  }

  /** The value `changepass` stores: a salt, a colon and the digest of password plus salt. */
  function SaltedHash(password: string, salt: string, hash: string -> string): string {
    salt + ":" + hash(password + salt)
  }

  /**
   * The check `load` makes for the "sha512" algorithm: a stored value with
   * exactly one colon is "salt:hash" and the digest of password plus salt is
   * compared with the part after the colon; any other value is a legacy hash
   * compared whole against the digest of the bare password.
   */
  function PasswordMatches(passhash: string, password: string, hash: string -> string): bool {
    var parts := Split(passhash, ':');
    var salt := if |parts| == 2 then parts[0] else "";
    var compareWith := if |parts| == 2 then parts[1] else passhash;
    hash(password + salt) == compareWith
  }

  /** A salted value verifies exactly the passwords whose salted digest equals its hash part. */
  lemma SaltedHashVerifies(salt: string, h: string, password: string, hash: string -> string)
    requires ':' !in salt && ':' !in h
    ensures PasswordMatches(salt + ":" + h, password, hash) <==> hash(password + salt) == h
  {
    SplitNoSeparator(h, ':');
    SplitAfterPrefix(salt, ':', h);
    assert salt + ":" + h == salt + [':'] + h;
  }

  lemma HexDigestHasNoColon(h: string)
    requires IsHexDigest(h)
    ensures ':' !in h
  {
  }

  /**
   * What `changepass` stores is accepted by `load` for the same password, and
   * for another password exactly when the two salted digests coincide.
   */
  lemma ChangedPasswordVerifies(password: string, salt: string, attempt: string, hash: string -> string)
    requires IsDigest(hash)
    requires ':' !in salt
    ensures PasswordMatches(SaltedHash(password, salt, hash), attempt, hash)
            <==> hash(attempt + salt) == hash(password + salt)
    ensures PasswordMatches(SaltedHash(password, salt, hash), password, hash)
  {
    HexDigestHasNoColon(hash(password + salt));
    SaltedHashVerifies(salt, hash(password + salt), attempt, hash);
    SaltedHashVerifies(salt, hash(password + salt), password, hash);
  }

  /** A legacy (colon-free) value verifies exactly the passwords whose bare digest it is. */
  lemma LegacyHashVerifies(passhash: string, password: string, hash: string -> string)
    requires ':' !in passhash
    ensures PasswordMatches(passhash, password, hash) <==> hash(password) == passhash
  {
    SplitNoSeparator(passhash, ':');
    assert password + "" == password;
  }

  /**
   * A stored value with two or more colons is compared whole, as a legacy hash,
   * so no password verifies against it when digests are hexadecimal.
   */
  lemma ManyColonsNeverVerify(a: string, b: string, c: string, password: string, hash: string -> string)
    requires IsDigest(hash)
    requires ':' !in a && ':' !in b
    ensures !PasswordMatches(a + ":" + b + ":" + c, password, hash)
  {
    var s := a + ":" + b + ":" + c;
    ThreePieces(a, b, c);
    HexDigestHasNoColon(hash(password));
    assert s[|a|] == ':';
    assert password + "" == password;
  }

  /** Two colons after colon-free prefixes give at least three pieces. */
  lemma ThreePieces(a: string, b: string, c: string)
    requires ':' !in a && ':' !in b
    ensures |Split(a + ":" + b + ":" + c, ':')| >= 3
  {
    assert a + ":" + b + ":" + c == a + [':'] + (b + [':'] + c);
    SplitAfterPrefix(a, ':', b + [':'] + c);
    SplitAfterPrefix(b, ':', c);
  }
}
