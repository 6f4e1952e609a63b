/**
 * The source classifier of the download factory: the three prefix tests,
 * the dispatch order of `receive_load`, and the one-key bencoded document
 * that stands in for a magnet link.
 */
module Uri {

  import opened Wrappers
  import opened Bencode

  const NUL: char := 0 as char

  /** The character a C string read of `s` sees at `i`: past the end it is the terminator. */
  function CharAt(s: string, i: nat): char {
    if i < |s| then s[i] else NUL
  }

  /**
   * `strncmp(a.c_str(), b, n) == 0`: the first `n` characters agree, where
   * the comparison stops early at a terminator both strings share.
   */
  function StrNCmpEqual(a: string, b: string, n: nat): bool
    decreases n
  {
    if n == 0 then true
    else if CharAt(a, 0) != CharAt(b, 0) then false
    else if CharAt(a, 0) == NUL then true
    else StrNCmpEqual(a[1..], b[1..], n - 1)
  }

  /** For a literal without a terminator, the strncmp test is the prefix test. */
  lemma {:induction false} StrNCmpIsPrefix(a: string, p: string)
    requires forall i :: 0 <= i < |p| ==> p[i] != NUL
    ensures StrNCmpEqual(a, p, |p|) <==> p <= a
  {
    if p != [] {
      if a != [] && a[0] == p[0] {
        StrNCmpIsPrefix(a[1..], p[1..]);
        assert p <= a <==> p[1..] <= a[1..];
      }
    }
  }

  /** `pat` occurs in `s` starting at `i`. */
  predicate OccursAt(s: string, pat: string, i: nat) {
    i + |pat| <= |s| && s[i..i + |pat|] == pat
  }

  /** `s.find(pat, from)`: the first occurrence at or after `from`, if any. */
  function Find(s: string, pat: string, from: nat): (r: Option<nat>)
    ensures r.Some? ==> from <= r.value && OccursAt(s, pat, r.value)
    ensures r.Some? ==> forall j :: from <= j < r.value ==> !OccursAt(s, pat, j)
    ensures r.None? ==> forall j :: from <= j ==> !OccursAt(s, pat, j)
    decreases |s| - from
  {
    if from + |pat| > |s| then None
    else if OccursAt(s, pat, from) then Some(from)
    else Find(s, pat, from + 1)
  }

  /** `is_data_uri`: prefix "data:" and a "base64," at position 5 or later. */
  predicate IsDataUri(uri: string)
    ensures IsDataUri(uri) <==>
      "data:" <= uri && exists i :: 5 <= i && OccursAt(uri, "base64,", i)
  {
    StrNCmpIsPrefix(uri, "data:");
    StrNCmpEqual(uri, "data:", 5) && Find(uri, "base64,", 5).Some?
  }

  /** `is_magnet_uri`: prefix "magnet:?". */
  predicate IsMagnetUri(uri: string)
    ensures IsMagnetUri(uri) <==> "magnet:?" <= uri
  {
    StrNCmpIsPrefix(uri, "magnet:?");
    StrNCmpEqual(uri, "magnet:?", 8)
  }

  /** `is_network_uri`: prefix "http://", "https://" or "ftp://". */
  predicate IsNetworkUri(uri: string)
    ensures IsNetworkUri(uri) <==> "http://" <= uri || "https://" <= uri || "ftp://" <= uri
  {
    StrNCmpIsPrefix(uri, "http://");
    StrNCmpIsPrefix(uri, "https://");
    StrNCmpIsPrefix(uri, "ftp://");
    StrNCmpEqual(uri, "http://", 7) || StrNCmpEqual(uri, "https://", 8) ||
    StrNCmpEqual(uri, "ftp://", 6)
  }

  datatype SourceKind = Network | Magnet | LocalFile

  /** The branch `receive_load` takes: network first, then magnet, else a local file. */
  function Classify(uri: string): SourceKind {
    if IsNetworkUri(uri) then Network
    else if IsMagnetUri(uri) then Magnet
    else LocalFile
  }

  /** The classifier in terms of the prefixes alone; everything else, data URIs included, is a file. */
  lemma {:induction false} ClassifyByPrefix(uri: string)
    ensures Classify(uri) == Network <==>
      "http://" <= uri || "https://" <= uri || "ftp://" <= uri
    ensures Classify(uri) == Magnet <==> "magnet:?" <= uri
    ensures Classify(uri) == LocalFile <==>
      !("http://" <= uri || "https://" <= uri || "ftp://" <= uri || "magnet:?" <= uri)
    ensures IsDataUri(uri) ==> Classify(uri) == LocalFile
  {
    if "magnet:?" <= uri {
      assert uri[0] == 'm';
    }
    if IsDataUri(uri) {
      assert uri[0] == 'd';
    }
  }

  /** What the magnet branch writes into the stream: `d10:magnet-uri<len>:<uri>e`. */
  function MagnetStream(uri: string): string {
    "d10:magnet-uri" + Decimal(|uri|) + ":" + uri + "e"
  }

  /** The magnet stream is the bencoding of the one-key map {"magnet-uri": uri}. */
  lemma MagnetStreamEncodes(uri: string)
    ensures MagnetStream(uri) == "d" + EncodeString("magnet-uri") + EncodeString(uri) + "e"
  {
    assert Decimal(10) == "10" by {
      assert Decimal(1) == "1";
      assert Decimal(0) == "0";
    }
  }

  /** Decoding the magnet stream gives back the URI under "magnet-uri". */
  lemma MagnetStreamDecodes(uri: string)
    ensures DecodeSingleEntry(MagnetStream(uri)) == Some(("magnet-uri", uri))
  {
    MagnetStreamEncodes(uri);
    var tail := EncodeString(uri) + "e";
    var s := MagnetStream(uri);
    assert s == "d" + (EncodeString("magnet-uri") + tail);
    assert s[1..] == EncodeString("magnet-uri") + tail;
    DecodeEncodeString("magnet-uri", tail);
    DecodeEncodeString(uri, "e");
  }
}
