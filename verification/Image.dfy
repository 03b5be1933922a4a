/** The image gate: internal/controller/managedservice_resources.go, lines 54-70. */
module Image {
  import opened Wrappers

  const MARKER := "@sha256:"

  /** Index of the first occurrence of `sep` in `s`. */
  function IndexOf(s: string, sep: string): (i: Option<nat>)
    ensures i.Some? ==> i.value + |sep| <= |s| && s[i.value..][..|sep|] == sep
  {
    if |s| < |sep| then None
    else if s[..|sep|] == sep then Some(0)
    else if s == "" then None
    else
      match IndexOf(s[1..], sep)
      case None => None
      case Some(i) => Some(i + 1)
  }

  /** Cuts `s` around the first occurrence of `sep`, as the standard library's Cut does. */
  function Cut(s: string, sep: string): (string, string, bool) {
    match IndexOf(s, sep)
    case None => (s, "", false)
    case Some(i) => (s[..i], s[i + |sep|..], true)
  }

  predicate IsHexDigit(c: char) {
    '0' <= c <= '9' || 'a' <= c <= 'f' || 'A' <= c <= 'F'
  }

  predicate AllHex(s: string) { forall i | 0 <= i < |s| :: IsHexDigit(s[i]) }

  /** Length of the decoded bytes, when `s` is a well-formed hexadecimal string. */
  function DecodedLength(s: string): Option<nat> {
    if |s| % 2 == 1 || !AllHex(s) then None else Some(|s| / 2)
  }

  datatype ImageError = NotPinned | InvalidDigest

  function ValidateImmutableImage(image: string): Result<(), ImageError> {
    var (repository, digest, found) := Cut(image, MARKER);
    if !found || repository == "" then Err(NotPinned)
    else if DecodedLength(digest) != Some(32) then Err(InvalidDigest)
    else Ok(())
  }

  predicate Immutable(image: string) { ValidateImmutableImage(image).Ok? }

  /** Whether `sep` occurs in `s` at index `i`. */
  predicate OccursAt(s: string, sep: string, i: nat) {
    i + |sep| <= |s| && s[i..i + |sep|] == sep
  }

  /** The digest-pinned references: a non-empty repository without the marker, the marker, 64 hex digits. */
  ghost predicate IsPinned(image: string, repository: string, digest: string) {
    && image == repository + "@sha256:" + digest
    && repository != ""
    && (forall i: nat :: !OccursAt(repository, "@sha256:", i))
    && |digest| == 64
    && (forall c | c in digest :: c in "0123456789abcdefABCDEF")
  }

  lemma HexLanguage(s: string)
    ensures AllHex(s) <==> forall c | c in s :: c in "0123456789abcdefABCDEF"
  {
    forall c: char ensures IsHexDigit(c) <==> c in "0123456789abcdefABCDEF" { HexDigits(c); }
  }

  lemma HexDigits(c: char)
    ensures IsHexDigit(c) <==> c in "0123456789abcdefABCDEF"
  {
    var digits := "0123456789abcdefABCDEF";
    if '0' <= c <= '9' { assert digits[c as int - '0' as int] == c; }
    if 'a' <= c <= 'f' { assert digits[10 + (c as int - 'a' as int)] == c; }
    if 'A' <= c <= 'F' { assert digits[16 + (c as int - 'A' as int)] == c; }
  }

  /** IndexOf finds the first occurrence, and finds one whenever there is one. */
  lemma {:induction false} IndexOfFirst(s: string, sep: string)
    requires sep != ""
    ensures match IndexOf(s, sep)
            case None => forall i: nat :: !OccursAt(s, sep, i)
            case Some(n) => OccursAt(s, sep, n) && forall i: nat | i < n :: !OccursAt(s, sep, i)
  {
    if |s| < |sep| || s[..|sep|] == sep {
    } else {
      IndexOfFirst(s[1..], sep);
      forall i: nat ensures OccursAt(s, sep, i) ==> i > 0 && OccursAt(s[1..], sep, i - 1) {
        if OccursAt(s, sep, i) {
          assert i > 0;
          assert s[1..][i - 1..i - 1 + |sep|] == s[i..i + |sep|];
        }
      }
      if IndexOf(s, sep).Some? {
        var n := IndexOf(s, sep).value;
        assert s[n..n + |sep|] == s[1..][n - 1..n - 1 + |sep|];
      }
    }
  }

  /** The marker has a single '@'. */
  lemma MarkersDoNotOverlap(s: string, n: nat, m: nat)
    requires n < m && OccursAt(s, MARKER, n) && OccursAt(s, MARKER, m)
    ensures n + |MARKER| <= m
  {
    assert s[m] == s[m..m + |MARKER|][0] == '@';
    forall j | n < j < n + |MARKER| ensures s[j] != '@' {
      assert s[j] == s[n..n + |MARKER|][j - n] == MARKER[j - n];
    }
  }

  /** After a repository without the marker, the first occurrence is the written one. */
  lemma FirstMarker(repository: string, digest: string)
    requires forall i: nat :: !OccursAt(repository, MARKER, i)
    ensures IndexOf(repository + MARKER + digest, MARKER) == Some(|repository|)
  {
    var s := repository + MARKER + digest;
    IndexOfFirst(s, MARKER);
    assert s[|repository|..|repository| + |MARKER|] == MARKER;
    assert OccursAt(s, MARKER, |repository|);
    var n := IndexOf(s, MARKER).value;
    if n < |repository| {
      MarkersDoNotOverlap(s, n, |repository|);
      assert s[n..n + |MARKER|] == repository[n..n + |MARKER|];
      assert OccursAt(repository, MARKER, n);
    }
  }

  /** The gate accepts exactly the digest-pinned references. */
  lemma ImmutableIffPinned(image: string)
    ensures Immutable(image) <==> exists repository, digest :: IsPinned(image, repository, digest)
  {
    IndexOfFirst(image, MARKER);
    forall digest ensures AllHex(digest) <==> forall c | c in digest :: c in "0123456789abcdefABCDEF" { HexLanguage(digest); }
    if Immutable(image) {
      var n := IndexOf(image, MARKER).value;
      var repository, digest := image[..n], image[n + |MARKER|..];
      forall i: nat ensures !OccursAt(repository, MARKER, i) {
        if OccursAt(repository, MARKER, i) {
          assert image[i..i + |MARKER|] == repository[i..i + |MARKER|];
          assert OccursAt(image, MARKER, i);
        }
      }
      assert image == repository + MARKER + digest;
      assert IsPinned(image, repository, digest);
    }
    if repository, digest :| IsPinned(image, repository, digest) {
      FirstMarker(repository, digest);
      assert image[..|repository|] == repository;
      assert image[|repository| + |MARKER|..] == digest;
    }
  }

  /** A reference splits in one way only. */
  lemma PinnedSplitUnique(image: string, r0: string, d0: string, r1: string, d1: string)
    requires IsPinned(image, r0, d0) && IsPinned(image, r1, d1)
    ensures r0 == r1 && d0 == d1
  {
    FirstMarker(r0, d0);
    FirstMarker(r1, d1);
    assert r0 == image[..|r0|] && r1 == image[..|r1|];
    assert d0 == image[|r0| + |MARKER|..] && d1 == image[|r1| + |MARKER|..];
  }
}
