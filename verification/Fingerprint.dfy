/** The byte stream behind a package fingerprint (hornlab_beat_bem/runtime.py, `_hash_file` and
    `package_fingerprint`): for every file the length of its name, the name, and the digest of
    its content. Two runtimes are told apart only if no two lists of files give one stream. */
module Fingerprints {
  import opened Prelude
  import opened Framing

  type Bytes = seq<byte>

  /** What SHA-256 returns; the function itself is a parameter. */
  type Digest32 = d: Bytes | |d| == 32 witness seq(32, _ => 0 as byte)

  /** A file whose reading fails after `failsAt` bytes, if it fails; 0 is a file that cannot be
      opened. */
  datatype File = File(bytes: Bytes, failsAt: Option<nat>)

  datatype Entry = Entry(name: Bytes, digest: Digest32)

  const CHUNK: nat := 0x10_0000

  /** "<unreadable>". */
  const UNREADABLE: Bytes := [60, 117, 110, 114, 101, 97, 100, 97, 98, 108, 101, 62]

  /** What is hashed in a file's place. */
  function Content(f: File): Bytes {
    if f.failsAt.Some? && f.failsAt.value <= |f.bytes| then f.bytes[..f.failsAt.value] + UNREADABLE else f.bytes
  }

  predicate Nameable(name: Bytes) {
    |name| < HEADER_LIMIT
  }

  function Block(e: Entry): Bytes
    requires Nameable(e.name)
  {
    Pack(|e.name|) + e.name + e.digest
  }

  predicate AllNameable(es: seq<Entry>) {
    forall e :: e in es ==> Nameable(e.name)
  }

  function Encode(es: seq<Entry>): Bytes
    requires AllNameable(es)
  {
    if es == [] then [] else Encode(es[..|es| - 1]) + Block(es[|es| - 1])
  }

  /** Reads a stream back: the stream says by itself where each name and digest ends. */
  function Parse(stream: Bytes): Option<seq<Entry>>
    decreases |stream|
  {
    if stream == [] then Some([])
    else if |stream| < HEADER_SIZE then None
    else
      var length := Unpack(stream[..HEADER_SIZE]);
      var end := HEADER_SIZE + length;
      if |stream| < end + 32 then None
      else
        var rest := Parse(stream[end + 32..]);
        if rest.None? then None
        else Some([Entry(stream[HEADER_SIZE..end], stream[end..end + 32])] + rest.value)
  }

  lemma EncodeBack(es: seq<Entry>, e: Entry)
    requires AllNameable(es) && Nameable(e.name)
    ensures AllNameable(es + [e]) && Encode(es + [e]) == Encode(es) + Block(e)
  {
  }

  class Hasher {
    const sha: Bytes -> Digest32
    /** Everything the outer digest was fed. */
    var fed: Bytes

    constructor (sha: Bytes -> Digest32)
      ensures this.sha == sha && fed == []
    {
      this.sha := sha;
      fed := [];
    }

    /** The content digest: the file in chunks, and the marker where reading fails. */
    method HashContent(file: File) returns (digest: Digest32)
      ensures digest == sha(Content(file))
      ensures file.failsAt.None? ==> digest == sha(file.bytes)
      ensures file.failsAt.Some? && file.failsAt.value <= |file.bytes| ==>
                digest == sha(file.bytes[..file.failsAt.value] + UNREADABLE)
    {
      var end := if file.failsAt.Some? && file.failsAt.value <= |file.bytes| then file.failsAt.value else |file.bytes|;
      var content: Bytes := [];
      while |content| < end
        invariant |content| <= end && content == file.bytes[..|content|]
      {
        var next := if |content| + CHUNK < end then |content| + CHUNK else end;
        content := content + file.bytes[|content|..next];
      }
      if file.failsAt.Some? && file.failsAt.value <= |file.bytes| {
        content := content + UNREADABLE;
      }
      assert content == Content(file);
      digest := sha(content);
    }

    /** `_hash_file`; false where the name's length does not fit its four bytes, and then nothing
        is fed. */
    method HashFile(name: Bytes, file: File) returns (ok: bool)
      modifies this`fed
      ensures ok <==> Nameable(name)
      ensures fed == old(fed) + if ok then Block(Entry(name, sha(Content(file)))) else []
      ensures ok ==>
                var block := fed[|old(fed)|..];
                && |block| == 4 + |name| + 32 && block[4..4 + |name|] == name
                && block[4 + |name|..] == sha(Content(file))
                && block[0] as int * 0x100_0000 + block[1] as int * 0x1_0000 + block[2] as int * 0x100
                   + block[3] as int == |name|
    {
      var digest := HashContent(file);
      ok := |name| < HEADER_LIMIT;
      if ok {
        fed := fed + Pack(|name|);
        fed := fed + name;
        fed := fed + digest;
        HeaderRoundTrip(|name|);
        assert fed[|old(fed)|..] == Block(Entry(name, digest));
      }
    }

    /** `package_fingerprint` over the files its patterns and arguments selected, in order. */
    method Feed(names: seq<Bytes>, files: seq<File>) returns (ghost es: seq<Entry>)
      requires |names| == |files| && forall n :: n in names ==> Nameable(n)
      modifies this`fed
      ensures |es| == |names| && AllNameable(es)
      ensures forall k :: 0 <= k < |names| ==> es[k] == Entry(names[k], sha(Content(files[k])))
      ensures fed == old(fed) + Encode(es)
    {
      es := [];
      for k := 0 to |names|
        invariant |es| == k && AllNameable(es)
        invariant forall j :: 0 <= j < k ==> es[j] == Entry(names[j], sha(Content(files[j])))
        invariant fed == old(fed) + Encode(es)
      {
        var e := Entry(names[k], sha(Content(files[k])));
        var ok := HashFile(names[k], files[k]);
        EncodeBack(es, e);
        es := es + [e];
      }
    }
  }

  lemma {:induction false} EncodeFront(e: Entry, es: seq<Entry>)
    requires Nameable(e.name) && AllNameable(es)
    ensures AllNameable([e] + es) && Encode([e] + es) == Block(e) + Encode(es)
  {
    var all := [e] + es;
    assert AllNameable(all);
    if es == [] {
      assert all[..0] == [] && all == [e];
    } else {
      EncodeFront(e, es[..|es| - 1]);
      assert all[..|all| - 1] == [e] + es[..|es| - 1];
    }
  }

  lemma ParseBlock(e: Entry, tail: Bytes)
    requires Nameable(e.name)
    ensures Parse(Block(e) + tail) == if Parse(tail).None? then None else Some([e] + Parse(tail).value)
  {
    HeaderRoundTrip(|e.name|);
    var stream := Block(e) + tail;
    var end := HEADER_SIZE + |e.name|;
    assert stream[..HEADER_SIZE] == Pack(|e.name|);
    assert stream[HEADER_SIZE..end] == e.name;
    assert stream[end..end + 32] == e.digest;
    assert stream[end + 32..] == tail;
  }

  /** The stream of a list can be read back as that list. */
  lemma {:induction false} ParseEncode(es: seq<Entry>)
    requires AllNameable(es)
    ensures Parse(Encode(es)) == Some(es)
  {
    if es != [] {
      ParseEncode(es[1..]);
      assert es == [es[0]] + es[1..];
      EncodeFront(es[0], es[1..]);
      ParseBlock(es[0], Encode(es[1..]));
    }
  }

  /** Equal streams come from equal lists of names and content digests. */
  lemma EncodingIsInjective(xs: seq<Entry>, ys: seq<Entry>)
    requires AllNameable(xs) && AllNameable(ys) && Encode(xs) == Encode(ys)
    ensures xs == ys
  {
    ParseEncode(xs);
    ParseEncode(ys);
  }

  /** A stream splits into streams only where the list splits into lists. */
  lemma EncodingIsSelfDelimiting(xs: seq<Entry>, ys: seq<Entry>, zs: seq<Entry>)
    requires AllNameable(xs) && AllNameable(ys) && AllNameable(zs) && Encode(xs) + Encode(ys) == Encode(zs)
    ensures zs == xs + ys
  {
    EncodeConcat(xs, ys);
    EncodingIsInjective(xs + ys, zs);
  }

  lemma {:induction false} EncodeConcat(xs: seq<Entry>, ys: seq<Entry>)
    requires AllNameable(xs) && AllNameable(ys)
    ensures AllNameable(xs + ys) && Encode(xs + ys) == Encode(xs) + Encode(ys)
  {
    if ys == [] {
      assert xs + ys == xs;
    } else {
      var front, e := ys[..|ys| - 1], ys[|ys| - 1];
      EncodeConcat(xs, front);
      assert AllNameable([e]);
      EncodeBack(xs + front, e);
      assert xs + ys == (xs + front) + [e];
      Reassociate(Encode(xs), Encode(front), Block(e));
    }
  }

  lemma Reassociate(a: Bytes, b: Bytes, c: Bytes)
    ensures (a + b) + c == a + (b + c)
  {
  }

  /** The marker is content like any other: a file whose reading fails contributes what the
      readable file does whose bytes are the part that was read and then the marker, and what no
      other readable file does. */
  lemma UnreadableIsAContent(f: File, g: File)
    requires f.failsAt.Some? && f.failsAt.value <= |f.bytes| && g.failsAt.None?
    ensures Content(f) == Content(g) <==> g.bytes == f.bytes[..f.failsAt.value] + UNREADABLE
  {
  }
}
