/** signature.go: signing and validating request and response bodies. HMAC-SHA256 and JSON
    canonicalisation are parameters. */
module Signature {
  import opened Json
  import opened Decimal
  import opened QueryText

  datatype Crypto = Crypto(hmac: (string, string) -> seq<Byte>, jcs: string -> Option<string>)

  /** A SHA-256 digest has 32 bytes. */
  ghost predicate Digests(c: Crypto) {
    forall key, message :: |c.hmac(key, message)| == 32
  }

  /* ---------- keys ---------- */

  const KEY_PREFIX := "signkey-"

  predicate IsWord(c: char) {
    '0' <= c <= '9' || 'a' <= c <= 'z' || 'A' <= c <= 'Z' || c == '_'
  }

  function WordLength(s: string): (n: nat)
    ensures n <= |s|
    ensures forall i :: 0 <= i < n ==> IsWord(s[i])
    ensures n < |s| ==> !IsWord(s[n])
  {
    if s == "" || !IsWord(s[0]) then 0 else 1 + WordLength(s[1..])
  }

  /** The length of what `^signkey-\w+-` matches, or 0. */
  function PrefixLength(key: string): (n: nat)
    ensures n <= |key|
  {
    if KEY_PREFIX <= key then
      var word := WordLength(key[|KEY_PREFIX|..]);
      var end := |KEY_PREFIX| + word;
      if word > 0 && end < |key| && key[end] == '-' then end + 1 else 0
    else 0
  }

  function NormalizeKey(key: string): string {
    key[PrefixLength(key)..]
  }

  /** What the regular expression says, without the scan. */
  ghost predicate Prefixed(key: string, word: string, rest: string) {
    && word != "" && key == "signkey-" + word + "-" + rest
    && forall i :: 0 <= i < |word| ==>
         'a' <= word[i] <= 'z' || 'A' <= word[i] <= 'Z' || '0' <= word[i] <= '9' || word[i] == '_'
  }

  lemma {:induction false} WordLengthIs(word: string, tail: string)
    requires forall i :: 0 <= i < |word| ==> IsWord(word[i])
    requires tail != "" && !IsWord(tail[0])
    ensures WordLength(word + tail) == |word|
  {
    if word == "" {
      assert word + tail == tail;
    } else {
      assert (word + tail)[1..] == word[1..] + tail;
      WordLengthIs(word[1..], tail);
    }
  }

  /** Exactly a key of the form signkey-<word>-<rest> loses that prefix; any other is left alone. */
  lemma NormalizeStripsPrefix(key: string, word: string, rest: string)
    requires Prefixed(key, word, rest)
    ensures NormalizeKey(key) == rest
  {
    WordLengthIs(word, "-" + rest);
    assert key[|KEY_PREFIX|..] == word + ("-" + rest);
  }

  lemma NormalizeLeavesOthers(key: string)
    ensures NormalizeKey(key) == key <==> !exists word, rest :: Prefixed(key, word, rest)
  {
    if PrefixLength(key) > 0 {
      var word := key[|KEY_PREFIX|..PrefixLength(key) - 1];
      assert Prefixed(key, word, NormalizeKey(key)) by {
        var w := WordLength(key[|KEY_PREFIX|..]);
        assert word == key[|KEY_PREFIX|..][..w];
        assert key == key[..|KEY_PREFIX|] + key[|KEY_PREFIX|..];
        assert key[|KEY_PREFIX|..] == word + "-" + NormalizeKey(key);
        assert key == KEY_PREFIX + word + "-" + NormalizeKey(key);
      }
    } else {
      forall word, rest
        ensures !Prefixed(key, word, rest)
      {
        if Prefixed(key, word, rest) { NormalizeStripsPrefix(key, word, rest); }
      }
    }
  }

  /* ---------- time ---------- */

  /** Seconds from Go's zero time to the Unix epoch. */
  const UNIX_TO_INTERNAL: int := 62135596800
  const NANOS: int := 1_000_000_000
  const MAX_AGE: int := 300 * NANOS

  function Wrap64(n: int): (r: int)
    ensures Int64(r)
  {
    (n - INT64_MIN) % 0x1_0000_0000_0000_0000 + INT64_MIN
  }

  function Saturate(n: int): int {
    if n < INT64_MIN then INT64_MIN else if n > INT64_MAX then INT64_MAX else n
  }

  /** A time as Go stores it: wrapping seconds since the zero time. */
  function FromUnix(ts: int): int { Wrap64(ts + UNIX_TO_INTERNAL) }

  /** `t.Unix()` */
  function ToUnix(internal: int): int { Wrap64(internal - UNIX_TO_INTERNAL) }

  /** `time.Since`, saturating; `now` is in nanoseconds since the epoch. */
  function Since(now: int, internal: int): int {
    Saturate(now - (internal - UNIX_TO_INTERNAL) * NANOS)
  }

  predicate Expired(now: int, ts: int) {
    Since(now, FromUnix(ts)) > MAX_AGE
  }

  lemma UnixIsBack(ts: int)
    requires Int64(ts)
    ensures ToUnix(FromUnix(ts)) == ts
    ensures FromUnix(ts)
      == ts + 62_135_596_800 - (if ts <= INT64_MAX - 62_135_596_800 then 0 else 0x1_0000_0000_0000_0000)
  {
    if ts <= INT64_MAX - UNIX_TO_INTERNAL {
      assert FromUnix(ts) == ts + UNIX_TO_INTERNAL;
    } else {
      assert FromUnix(ts) == ts + UNIX_TO_INTERNAL - 0x1_0000_0000_0000_0000;
    }
  }

  /** What expiry means: more than five minutes old, or so far in the future that the time wraps around. */
  lemma ExpiredIff(now: int, ts: int)
    requires 0 <= now <= INT64_MAX && Int64(ts)
    ensures Expired(now, ts)
      <==> now - ts * 1_000_000_000 > 300 * 1_000_000_000 || ts > INT64_MAX - 62_135_596_800
    ensures ToUnix(FromUnix(ts)) == ts
    ensures !Expired(now, ts) ==> FromUnix(ts) != 0
  {
    UnixIsBack(ts);
  }

  /* ---------- signing ---------- */

  function Print(ts: int, digest: string): string {
    "t=" + SignedDec(ts) + "&s=" + digest
  }

  function Digest(c: Crypto, key: string, message: string, ts: int): string {
    Hex(c.hmac(key, message + SignedDec(ts)))
  }

  /** The second a signature made at the Go time `at` carries; the zero time means now. */
  function Stamp(now: int, at: int): int {
    if at == 0 then now / NANOS else ToUnix(at)
  }

  /** `signWithoutJCS` */
  function SignMessage(c: Crypto, now: int, at: int, key: string, message: string): string {
    Print(Stamp(now, at), Digest(c, NormalizeKey(key), message, Stamp(now, at)))
  }

  /** What `Sign` signs: the canonical body, which is nothing when the body is not JSON. */
  function Canonical(c: Crypto, body: string): string {
    if body == "" then body
    else
      match c.jcs(body)
      case Some(canonical) => canonical
      case None => ""
  }

  function Sign(c: Crypto, now: int, at: int, key: string, body: string): string {
    SignMessage(c, now, at, key, Canonical(c, body))
  }

  /** What a signature is: the second it was made, and the code in hex over the message and that second's decimal,
      under the key without its prefix. */
  lemma SignatureText(c: Crypto, now: int, at: int, key: string, message: string, ts: int)
    requires at == 0 ==> ts * 1_000_000_000 <= now < (ts + 1) * 1_000_000_000
    requires at != 0 ==> Int64(ts) && at == FromUnix(ts)
    ensures SignMessage(c, now, at, key, message)
      == "t=" + SignedDec(ts) + "&s=" + Hex(c.hmac(NormalizeKey(key), message + SignedDec(ts)))
  {
    StampIs(now, at, ts);
  }

  lemma StampIs(now: int, at: int, ts: int)
    requires at == 0 ==> ts * 1_000_000_000 <= now < (ts + 1) * 1_000_000_000
    requires at != 0 ==> Int64(ts) && at == FromUnix(ts)
    ensures Stamp(now, at) == ts
  {
    if at != 0 { UnixIsBack(ts); }
  }

  /** A body that is JSON is signed in its canonical form. */
  lemma SignsCanonicalForm(c: Crypto, now: int, at: int, key: string, body: string, canonical: string)
    requires body != "" && c.jcs(body) == Some(canonical)
    ensures Sign(c, now, at, key, body) == SignMessage(c, now, at, key, canonical)
  {
  }

  /** An empty body, and one that is not JSON, are signed like no message at all. */
  lemma SignsNothing(c: Crypto, now: int, at: int, key: string, body: string)
    requires body == "" || c.jcs(body) == None
    ensures Sign(c, now, at, key, body) == SignMessage(c, now, at, key, "")
  {
  }

  /* ---------- validating ---------- */

  datatype Verdict = Valid | ExpiredSignature | InvalidSignature | InvalidTimestamp

  /** What request and response validation share: `key` is normalised here and again by the signing. */
  function Validate(c: Crypto, now: int, sig: string, key: string, message: string): Verdict {
    match ParseQuery(sig)
    case None => InvalidSignature
    case Some(values) =>
      if Get(values, "t") == "" || Get(values, "s") == "" then InvalidSignature
      else
        match Atoi(Get(values, "t"))
        case None => InvalidTimestamp
        case Some(ts) =>
          if Expired(now, ts) then ExpiredSignature
          else if SignMessage(c, now, FromUnix(ts), NormalizeKey(key), message) != sig then InvalidSignature
          else Valid
  }

  /** One key's turn in `ValidateRequestSignature`. */
  function ValidateRequest(c: Crypto, now: int, sig: string, key: string, body: string): Verdict {
    Validate(c, now, sig, key, Canonical(c, body))
  }

  function TrimNewline(body: string): string {
    if body != "" && body[|body| - 1] == '\n' then body[..|body| - 1] else body
  }

  function ValidateResponse(c: Crypto, now: int, sig: string, key: string, body: string): Verdict {
    Validate(c, now, sig, key, TrimNewline(body))
  }

  /** Whether the request is accepted, the key it was signed with, and the error otherwise. */
  datatype Outcome = Outcome(accepted: bool, key: string, verdict: Verdict)

  function ValidateWithFallback(
    c: Crypto, now: int, sig: string, primary: string, fallback: string, body: string, isDev: bool): Outcome
  {
    if isDev then Outcome(true, "", Valid)
    else
      var first := ValidateRequest(c, now, sig, primary, body);
      if first == Valid then Outcome(true, primary, first)
      else if fallback != "" then
        var second := ValidateRequest(c, now, sig, fallback, body);
        Outcome(second == Valid, if second == Valid then fallback else "", second)
      else Outcome(false, "", first)
  }

  /* ---------- what is accepted ---------- */

  lemma DecimalIsPlain(n: int)
    ensures Plain(SignedDec(n))
  {
    forall i | 0 <= i < |SignedDec(n)|
      ensures SignedDec(n)[i] !in "&;=%+"
    {
      assert IsDigit(SignedDec(n)[i]) || SignedDec(n)[i] == '-';
    }
  }

  lemma HexIsPlain(bytes: seq<Byte>)
    ensures Plain(Hex(bytes))
  {
    forall i | 0 <= i < |Hex(bytes)|
      ensures Hex(bytes)[i] !in "&;=%+"
    {
      assert Hex(bytes)[i] in HEX_DIGITS;
    }
  }

  /** A printed signature reads back as its time and its digest. */
  lemma ParsePrinted(ts: int, digest: string)
    requires Plain(digest)
    ensures ParseQuery(Print(ts, digest)) == Some(map["t" := [SignedDec(ts)], "s" := [digest]])
  {
    DecimalIsPlain(ts);
    assert Print(ts, digest) == "t" + "=" + SignedDec(ts) + "&" + ("s" + "=" + digest);
    ParseTwoPairs("t", SignedDec(ts), "s", digest);
  }

  lemma PrintInjective(ts1: int, digest1: string, ts2: int, digest2: string)
    requires Int64(ts1) && Int64(ts2) && Plain(digest1) && Plain(digest2) && Print(ts1, digest1) == Print(ts2, digest2)
    ensures ts1 == ts2 && digest1 == digest2
  {
    ParsePrinted(ts1, digest1);
    ParsePrinted(ts2, digest2);
    var values := map["t" := [SignedDec(ts1)], "s" := [digest1]];
    assert values == map["t" := [SignedDec(ts2)], "s" := [digest2]];
    assert values["t"][0] == SignedDec(ts1) == SignedDec(ts2) && values["s"][0] == digest1 == digest2;
    AtoiReadsDecimal(ts1);
    AtoiReadsDecimal(ts2);
  }

  /** The signature that validation under `key` compares with: the key is normalised twice. */
  function Due(c: Crypto, key: string, message: string, ts: int): string {
    Print(ts, Digest(c, NormalizeKey(NormalizeKey(key)), message, ts))
  }

  /** Exactly the printed signature of an unexpired time is accepted: no other spelling of the number, no
      further field, no other order. */
  lemma AcceptedIff(c: Crypto, now: int, sig: string, key: string, message: string)
    requires Digests(c) && 0 <= now <= INT64_MAX
    ensures Validate(c, now, sig, key, message) == Valid
      <==> exists ts :: Int64(ts) && !Expired(now, ts) && sig == Due(c, key, message, ts)
  {
    if Validate(c, now, sig, key, message) == Valid {
      var ts := Atoi(Get(ParseQuery(sig).value, "t")).value;
      ExpiredIff(now, ts);
      assert sig == Due(c, key, message, ts);
    }
    if ts :| Int64(ts) && !Expired(now, ts) && sig == Due(c, key, message, ts) {
      DueIsAccepted(c, now, key, message, ts);
    }
  }

  lemma DueText(c: Crypto, key: string, message: string, ts: int)
    ensures Due(c, key, message, ts)
      == "t=" + SignedDec(ts) + "&s=" + Hex(c.hmac(NormalizeKey(NormalizeKey(key)), message + SignedDec(ts)))
  {
  }

  /** A request is validated by its canonical form: exactly the text of an unexpired time and the code over that
      form and the time is accepted; a body that is not JSON is validated like an empty one. */
  lemma RequestAcceptedIff(c: Crypto, now: int, sig: string, key: string, body: string, canonical: string)
    requires Digests(c) && 0 <= now <= INT64_MAX
    requires if body != "" && c.jcs(body).Some? then c.jcs(body) == Some(canonical) else canonical == ""
    ensures ValidateRequest(c, now, sig, key, body) == Valid
      <==> exists ts :: Int64(ts) && !Expired(now, ts) && sig == Due(c, key, canonical, ts)
  {
    AcceptedIff(c, now, sig, key, canonical);
  }

  /** Bodies with one canonical form sign alike, and each is validated by the other's signatures. */
  lemma SameFormSignsAlike(c: Crypto, now: int, at: int, key: string, sig: string, one: string, other: string)
    requires one != "" && other != "" && c.jcs(one).Some? && c.jcs(one) == c.jcs(other)
    ensures Sign(c, now, at, key, one) == Sign(c, now, at, key, other)
    ensures ValidateRequest(c, now, sig, key, one) == ValidateRequest(c, now, sig, key, other)
  {
  }

  /** The verdict on a text with just these two fields. */
  lemma VerdictOnRead(c: Crypto, now: int, sig: string, t: string, s: string, key: string, message: string)
    requires ParseQuery(sig) == Some(map["t" := [t], "s" := [s]])
    ensures Validate(c, now, sig, key, message) ==
      if t == "" || s == "" then InvalidSignature
      else if Atoi(t) == None then InvalidTimestamp
      else if Expired(now, Atoi(t).value) then ExpiredSignature
      else if sig == SignMessage(c, now, FromUnix(Atoi(t).value), NormalizeKey(key), message) then Valid
      else InvalidSignature
  {
    var values := ParseQuery(sig).value;
    assert Get(values, "t") == t && Get(values, "s") == s;
  }

  lemma AtoiInRange(t: string)
    ensures Atoi(t).Some? ==> Int64(Atoi(t).value)
  {
  }

  /** The verdict on any two fields of plain text: both must be there, the time must be a number, it must not have
      expired, and the code must be the one due, with the number in its shortest form. */
  lemma VerdictOnFields(c: Crypto, now: int, t: string, s: string, key: string, message: string)
    requires 0 <= now <= INT64_MAX && Plain(t) && Plain(s)
    ensures Validate(c, now, "t=" + t + "&s=" + s, key, message) ==
      if t == "" || s == "" then InvalidSignature
      else if Atoi(t) == None then InvalidTimestamp
      else if Expired(now, Atoi(t).value) then ExpiredSignature
      else if t == SignedDec(Atoi(t).value) && s == Hex(c.hmac(NormalizeKey(NormalizeKey(key)), message + t)) then Valid
      else InvalidSignature
  {
    var sig := "t=" + t + "&s=" + s;
    assert sig == "t" + "=" + t + "&" + ("s" + "=" + s);
    ParseTwoPairs("t", t, "s", s);
    VerdictOnRead(c, now, sig, t, s, key, message);
    AtoiInRange(t);
    if Atoi(t).Some? && !Expired(now, Atoi(t).value) {
      SameAsDue(c, now, t, s, key, message, Atoi(t).value);
    }
  }

  lemma SameAsDue(c: Crypto, now: int, t: string, s: string, key: string, message: string, ts: int)
    requires 0 <= now <= INT64_MAX && Int64(ts) && !Expired(now, ts) && Plain(t) && Plain(s)
    ensures "t=" + t + "&s=" + s == SignMessage(c, now, FromUnix(ts), NormalizeKey(key), message)
      <==> t == SignedDec(ts) && s == Hex(c.hmac(NormalizeKey(NormalizeKey(key)), message + t))
  {
    ExpiredIff(now, ts);
    SignatureText(c, now, FromUnix(ts), NormalizeKey(key), message, ts);
    var code := c.hmac(NormalizeKey(NormalizeKey(key)), message + SignedDec(ts));
    HexIsPlain(code);
    DecimalIsPlain(ts);
    TwoFieldsApart(t, s, SignedDec(ts), Hex(code));
  }

  /** Two pairs of plain fields print alike only if they are the same. */
  lemma TwoFieldsApart(t1: string, s1: string, t2: string, s2: string)
    requires Plain(t1) && Plain(s1) && Plain(s2)
    ensures Plain(t2) && "t=" + t1 + "&s=" + s1 == "t=" + t2 + "&s=" + s2 ==> t1 == t2 && s1 == s2
  {
    if Plain(t2) && "t=" + t1 + "&s=" + s1 == "t=" + t2 + "&s=" + s2 {
      assert "t=" + t1 + "&s=" + s1 == "t" + "=" + t1 + "&" + ("s" + "=" + s1);
      assert "t=" + t2 + "&s=" + s2 == "t" + "=" + t2 + "&" + ("s" + "=" + s2);
      ParseTwoPairs("t", t1, "s", s1);
      ParseTwoPairs("t", t2, "s", s2);
      var values := map["t" := [t1], "s" := [s1]];
      assert values == map["t" := [t2], "s" := [s2]];
      assert values["t"][0] == t1 == t2 && values["s"][0] == s1 == s2;
    }
  }

  lemma ReadBackIsAccepted(c: Crypto, now: int, sig: string, key: string, message: string, ts: int, digest: string)
    requires ParseQuery(sig) == Some(map["t" := [SignedDec(ts)], "s" := [digest]]) && digest != ""
    requires Atoi(SignedDec(ts)) == Some(ts) && !Expired(now, ts)
    requires sig == SignMessage(c, now, FromUnix(ts), NormalizeKey(key), message)
    ensures Validate(c, now, sig, key, message) == Valid
  {
    var values := ParseQuery(sig).value;
    assert Get(values, "t") == SignedDec(ts) && Get(values, "s") == digest;
  }

  lemma DueIsAccepted(c: Crypto, now: int, key: string, message: string, ts: int)
    requires Digests(c) && 0 <= now <= INT64_MAX && Int64(ts) && !Expired(now, ts)
    ensures Validate(c, now, Due(c, key, message, ts), key, message) == Valid
  {
    var code := c.hmac(NormalizeKey(NormalizeKey(key)), message + SignedDec(ts));
    HexIsPlain(code);
    ParsePrinted(ts, Hex(code));
    AtoiReadsDecimal(ts);
    ExpiredIff(now, ts);
    assert Hex(code) != "" by { assert |code| == 32; }
    ReadBackIsAccepted(c, now, Due(c, key, message, ts), key, message, ts, Hex(code));
  }

  /** A signature made with one key over one message is accepted under another key for another message,
      while it is not expired, exactly when the two keys' codes agree. */
  lemma SignedIsAcceptedIff(
    c: Crypto, made: int, at: int, signingKey: string, signed: string, now: int, key: string, message: string)
    requires Digests(c) && 0 <= now <= INT64_MAX && Int64(Stamp(made, at)) && !Expired(now, Stamp(made, at))
    ensures Validate(c, now, SignMessage(c, made, at, signingKey, signed), key, message) == Valid
      <==> (c.hmac(NormalizeKey(NormalizeKey(key)), message + SignedDec(Stamp(made, at)))
            == c.hmac(NormalizeKey(signingKey), signed + SignedDec(Stamp(made, at))))
  {
    var ts := Stamp(made, at);
    var sig := SignMessage(c, made, at, signingKey, signed);
    var code := c.hmac(NormalizeKey(signingKey), signed + SignedDec(ts));
    AcceptedIff(c, now, sig, key, message);
    if Validate(c, now, sig, key, message) == Valid {
      var ts2 :| Int64(ts2) && !Expired(now, ts2) && sig == Due(c, key, message, ts2);
      var code2 := c.hmac(NormalizeKey(NormalizeKey(key)), message + SignedDec(ts2));
      HexIsPlain(code);
      HexIsPlain(code2);
      PrintInjective(ts, Hex(code), ts2, Hex(code2));
      HexInjective(code, code2);
    }
    if c.hmac(NormalizeKey(NormalizeKey(key)), message + SignedDec(ts)) == code {
      assert sig == Due(c, key, message, ts);
    }
  }

  /** The code tells the key without one prefix from the key without two, at what is signed here. */
  predicate TellsApart(c: Crypto, key: string, message: string) {
    c.hmac(NormalizeKey(NormalizeKey(key)), message) == c.hmac(NormalizeKey(key), message) ==>
      NormalizeKey(NormalizeKey(key)) == NormalizeKey(key)
  }

  /** Signing and validating with the same key and body: accepted whenever the key without its prefix has
      no second prefix, and, where the code tells the two keys apart, only then. */
  lemma RoundTripIff(c: Crypto, made: int, at: int, now: int, key: string, body: string)
    requires Digests(c) && 0 <= now <= INT64_MAX && Int64(Stamp(made, at)) && !Expired(now, Stamp(made, at))
    ensures NormalizeKey(NormalizeKey(key)) == NormalizeKey(key) ==>
      ValidateRequest(c, now, Sign(c, made, at, key, body), key, body) == Valid
    ensures TellsApart(c, key, Canonical(c, body) + SignedDec(Stamp(made, at))) ==>
      (ValidateRequest(c, now, Sign(c, made, at, key, body), key, body) == Valid
       <==> !exists word, rest :: Prefixed(NormalizeKey(key), word, rest))
  {
    SignedIsAcceptedIff(c, made, at, key, Canonical(c, body), now, key, Canonical(c, body));
    NormalizeLeavesOthers(NormalizeKey(key));
  }

  /** Every key with two prefixes: its own signature is accepted exactly when the code does not tell the key
      without one prefix from the key without both. */
  lemma DoublePrefixAcceptedIff(
    c: Crypto, made: int, at: int, now: int, key: string, word1: string, middle: string, word2: string, rest: string,
    body: string)
    requires Digests(c) && 0 <= now <= INT64_MAX && Int64(Stamp(made, at)) && !Expired(now, Stamp(made, at))
    requires Prefixed(key, word1, middle) && Prefixed(middle, word2, rest)
    ensures ValidateRequest(c, now, Sign(c, made, at, key, body), key, body) == Valid
      <==> (c.hmac(rest, Canonical(c, body) + SignedDec(Stamp(made, at)))
            == c.hmac(middle, Canonical(c, body) + SignedDec(Stamp(made, at))))
  {
    NormalizeStripsPrefix(key, word1, middle);
    NormalizeStripsPrefix(middle, word2, rest);
    SignedIsAcceptedIff(c, made, at, key, Canonical(c, body), now, key, Canonical(c, body));
  }

  /** The environment in a key's prefix does not matter to its signatures. */
  lemma PrefixDoesNotMatter(c: Crypto, now: int, at: int, key1: string, word1: string, key2: string, word2: string,
      rest: string, body: string)
    requires Prefixed(key1, word1, rest) && Prefixed(key2, word2, rest)
    ensures Sign(c, now, at, key1, body) == Sign(c, now, at, key2, body)
    ensures NormalizeKey(rest) == rest ==> Sign(c, now, at, key1, body) == Sign(c, now, at, rest, body)
  {
    NormalizeStripsPrefix(key1, word1, rest);
    NormalizeStripsPrefix(key2, word2, rest);
  }

  /** A request in production is accepted exactly when one of the two keys validates it, the fallback only
      when there is one; the key returned is one that validates it, the primary one if it does. */
  lemma FallbackVerdict(c: Crypto, now: int, sig: string, primary: string, fallback: string, body: string)
    ensures var o := ValidateWithFallback(c, now, sig, primary, fallback, body, false);
      && (o.accepted <==>
            exists k :: (k == primary || (k == fallback && k != "")) && ValidateRequest(c, now, sig, k, body) == Valid)
      && (o.accepted ==> ValidateRequest(c, now, sig, o.key, body) == Valid && o.key in {primary, fallback})
      && (ValidateRequest(c, now, sig, primary, body) == Valid ==> o.key == primary)
      && (!o.accepted ==> o.key == "" && o.verdict != Valid)
      && (!o.accepted ==>
            o.verdict == ValidateRequest(c, now, sig, if fallback == "" then primary else fallback, body))
    ensures ValidateWithFallback(c, now, sig, primary, fallback, body, true) == Outcome(true, "", Valid)
  {
  }

  /** Validating under one key meets what signing under another made. */
  predicate CodesAgree(c: Crypto, validating: string, signing: string, message: string) {
    c.hmac(NormalizeKey(NormalizeKey(validating)), message) == c.hmac(NormalizeKey(signing), message)
  }

  /** A fresh request is accepted exactly when its signer's code agrees with that of one of the worker's keys. */
  lemma SignerIsRecognisedIff(
    c: Crypto, made: int, at: int, serverKey: string, body: string, now: int, primary: string, fallback: string)
    requires Digests(c) && 0 <= now <= INT64_MAX && Int64(Stamp(made, at)) && !Expired(now, Stamp(made, at))
    ensures ValidateWithFallback(c, now, Sign(c, made, at, serverKey, body), primary, fallback, body, false).accepted
      <==> (CodesAgree(c, primary, serverKey, Canonical(c, body) + SignedDec(Stamp(made, at)))
            || (fallback != "" && CodesAgree(c, fallback, serverKey, Canonical(c, body) + SignedDec(Stamp(made, at)))))
  {
    SignedIsAcceptedIff(c, made, at, serverKey, Canonical(c, body), now, primary, Canonical(c, body));
    SignedIsAcceptedIff(c, made, at, serverKey, Canonical(c, body), now, fallback, Canonical(c, body));
  }

  /** The whole exchange. The server signs a request with a key that has no second prefix and that is the
      worker's primary or fallback key; the worker accepts it while it is fresh, and signs its response with
      the key it found; the server, knowing the response under any body that the trailing newline does not
      change, accepts it under that same key. */
  lemma ExchangeSucceeds(
    c: Crypto, made: int, at: int, serverKey: string, body: string,
    now: int, primary: string, fallback: string, response: string,
    respondedAt: int, received: string, later: int)
    requires Digests(c) && 0 <= now <= INT64_MAX && 0 <= later <= INT64_MAX
    requires Int64(Stamp(made, at)) && !Expired(now, Stamp(made, at))
    requires Int64(Stamp(now, respondedAt)) && !Expired(later, Stamp(now, respondedAt))
    requires serverKey == primary || (serverKey == fallback && fallback != "")
    requires forall k :: k in {primary, fallback} ==> NormalizeKey(NormalizeKey(k)) == NormalizeKey(k)
    requires TrimNewline(received) == response
    ensures var o := ValidateWithFallback(c, now, Sign(c, made, at, serverKey, body), primary, fallback, body, false);
      o.accepted && o.key in {primary, fallback}
      && ValidateResponse(c, later, SignMessage(c, now, respondedAt, o.key, response), o.key, received) == Valid
  {
    var sig := Sign(c, made, at, serverKey, body);
    RoundTripIff(c, made, at, now, serverKey, body);
    FallbackVerdict(c, now, sig, primary, fallback, body);
    var o := ValidateWithFallback(c, now, sig, primary, fallback, body, false);
    SignedIsAcceptedIff(c, now, respondedAt, o.key, response, later, o.key, TrimNewline(received));
  }

  /** A signed response is received unchanged under validation exactly as sent without a newline at its end,
      or with one newline added. */
  lemma TrimmedIff(response: string, received: string)
    ensures TrimNewline(received) == response
      <==> received == response + "\n" || (received == response && (response == "" || response[|response| - 1] != '\n'))
  {
    if TrimNewline(received) == response && received != response {
      assert received == received[..|received| - 1] + [received[|received| - 1]];
    }
  }
}
