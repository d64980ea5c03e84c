/** `utils/crypto.js`: random hex strings, the "{salt}:{hash}" password format and a
    comparison that answers false instead of throwing. `randomBytes` is given as the bytes
    it drew and PBKDF2 (SHA-512, 1000 rounds, 64 bytes) as a function. */
module CryptoUtils {
  import opened Base
  import opened Strings

  /** `pbkdf2Sync(password, salt, 1000, 64, 'sha512')` */
  type Pbkdf2 = (string, string) -> seq<byte>

  /** `generateRandomString(length)`, `random` being the `length` bytes drawn. */
  function GenerateRandomString(random: seq<byte>): (r: string)
    ensures |r| == 2 * |random| && IsHex(r)
  {
    Hex(random)
  }

  /** The random string encodes the drawn bytes: nothing is lost. */
  lemma RandomStringEncodesBytes(random: seq<byte>)
    ensures Unhex(GenerateRandomString(random)) == random
  {
    HexRoundTrip(random);
  }

  lemma HexHasNoColon(s: string)
    requires IsHex(s)
    ensures ':' !in s
  {
  }

  /** The salt `hashPassword` uses: the one given, or 16 fresh bytes in hex when it is
      missing or empty. */
  function SaltOf(salt: string, random16: seq<byte>): (s: string)
    requires |random16| == 16
    ensures salt != "" ==> s == salt
    ensures salt == "" ==> |s| == 32 && IsHex(s)
  {
    if salt == "" then Hex(random16) else salt
  }

  /** `hashPassword(password, salt)`: "{salt}:{hex of the derived key}". */
  function HashPassword(password: string, salt: string, random16: seq<byte>, pbkdf2: Pbkdf2): (r: string)
    requires |random16| == 16
    ensures var s := SaltOf(salt, random16);
            |r| > |s| && r[..|s|] == s && r[|s|] == ':' && r[|s| + 1..] == Hex(pbkdf2(password, s))
  {
    var s := SaltOf(salt, random16);
    s + ":" + Hex(pbkdf2(password, s))
  }

  /** `verifyPassword(password, hashed)`: the text after the first ':' (up to any next ':')
      must be the hex key derived from the password and the text before it. */
  function VerifyPassword(password: string, hashed: string, pbkdf2: Pbkdf2): (r: bool)
    ensures r ==> ':' in hashed
  {
    var parts := Split(hashed, ':');
    if |parts| < 2 then false
    else
      assert ':' in hashed by {
        if ':' !in hashed {
          SplitWithoutSep(hashed, ':');
        }
      }
      parts[1] == Hex(pbkdf2(password, parts[0]))
  }

  /** How a stored "{salt}:{hash}" with a salt free of ':' is read back. */
  lemma StoredParts(salt: string, hash: string)
    requires ':' !in salt && IsHex(hash)
    ensures Split(salt + ":" + hash, ':') == [salt, hash]
  {
    HexHasNoColon(hash);
    SplitWithoutSep(hash, ':');
    SplitAfterFirst(salt, hash, ':');
    assert salt + ":" + hash == salt + [':'] + hash;
  }

  /** The round trip: a password verifies against its own hash for every salt free of ':',
      including a generated one. */
  lemma HashThenVerify(password: string, salt: string, random16: seq<byte>, pbkdf2: Pbkdf2)
    requires |random16| == 16
    requires ':' !in salt
    ensures VerifyPassword(password, HashPassword(password, salt, random16, pbkdf2), pbkdf2)
  {
    var s := SaltOf(salt, random16);
    if salt == "" {
      HexHasNoColon(s);
    }
    StoredParts(s, Hex(pbkdf2(password, s)));
  }

  /** Another password is refused whenever it derives a different key under that salt. */
  lemma WrongPasswordRefused(password: string, other: string, salt: string, random16: seq<byte>, pbkdf2: Pbkdf2)
    requires |random16| == 16
    requires ':' !in salt
    requires pbkdf2(other, SaltOf(salt, random16)) != pbkdf2(password, SaltOf(salt, random16))
    ensures !VerifyPassword(other, HashPassword(password, salt, random16, pbkdf2), pbkdf2)
  {
    var s := SaltOf(salt, random16);
    if salt == "" {
      HexHasNoColon(s);
    }
    StoredParts(s, Hex(pbkdf2(password, s)));
    HexRoundTrip(pbkdf2(password, s));
    HexRoundTrip(pbkdf2(other, s));
  }

  /** `timingSafeEqual(a, b)`: a length mismatch, which makes the byte comparison throw,
      answers false. */
  function TimingSafeEqual(a: string, b: string): (r: bool)
    ensures r <==> a == b
  {
    match BufferEquals(a, b)
    case Ok(same) => same
    case Err(_) => false
  }
}
