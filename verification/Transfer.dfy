/**
 Moving an artifact's bytes: base64 of section 4 of RFC 4648, the chunked read the core answers, the
 verified download of a remote client, and the content-addressed store the bytes come from.

 The digest is any function of the bytes.
 */
module Transfer {
  import opened Wrappers

  type Byte = b: int | 0 <= b < 256
  type Path = nat
  type Digest = nat

  // ---------------------------------------------------------------- base64

  type Sextet = n: int | 0 <= n < 64

  function Character(n: Sextet): (c: char)
    ensures ValueOf(c) == Some(n)
  {
    if n < 26 then ('A' as int + n) as char
    else if n < 52 then ('a' as int + n - 26) as char
    else if n < 62 then ('0' as int + n - 52) as char
    else if n == 62 then '+' else '/'
  }

  function ValueOf(c: char): Option<Sextet> {
    if 'A' <= c <= 'Z' then Some(c as int - 'A' as int)
    else if 'a' <= c <= 'z' then Some(c as int - 'a' as int + 26)
    else if '0' <= c <= '9' then Some(c as int - '0' as int + 52)
    else if c == '+' || c == '-' then Some(62)
    else if c == '/' || c == '_' then Some(63)
    else None
  }

  // Four sextets of three bytes, and the three bytes again.

  function Sextet0(a: Byte): Sextet { var x: int := a; x / 4 }
  function Sextet1(a: Byte, b: Byte): Sextet { var x: int, y: int := a, b; x % 4 * 16 + y / 16 }
  function Sextet2(b: Byte, c: Byte): Sextet { var x: int, y: int := b, c; x % 16 * 4 + y / 64 }
  function Sextet3(c: Byte): Sextet { var x: int := c; x % 64 }
  function Byte0(w: Sextet, x: Sextet): Byte { var p: int, q: int := w, x; p * 4 + q / 16 }
  function Byte1(x: Sextet, y: Sextet): Byte { var p: int, q: int := x, y; p % 16 * 16 + q / 4 }
  function Byte2(y: Sextet, z: Sextet): Byte { var p: int, q: int := y, z; p % 4 * 64 + q }

  /** Three bytes as four characters, and the padded forms of one and two. */
  function Encode(bytes: seq<Byte>): string {
    if bytes == [] then ""
    else if |bytes| == 1 then [Character(Sextet0(bytes[0])), Character(Sextet1(bytes[0], 0)), '=', '=']
    else if |bytes| == 2 then
      [Character(Sextet0(bytes[0])), Character(Sextet1(bytes[0], bytes[1])), Character(Sextet2(bytes[1], 0)), '=']
    else EncodeGroup(bytes[0], bytes[1], bytes[2]) + Encode(bytes[3..])
  }

  function EncodeGroup(a: Byte, b: Byte, c: Byte): string {
    [Character(Sextet0(a)), Character(Sextet1(a, b)), Character(Sextet2(b, c)), Character(Sextet3(c))]
  }

  /** The characters of the alphabet in a text; padding and anything else is skipped. */
  function Sextets(s: string): seq<Sextet> {
    if s == "" then []
    else if ValueOf(s[0]).Some? then [ValueOf(s[0]).value] + Sextets(s[1..])
    else Sextets(s[1..])
  }

  function Pack(v: seq<Sextet>): seq<Byte> {
    if |v| < 2 then []
    else if |v| == 2 then [Byte0(v[0], v[1])]
    else if |v| == 3 then [Byte0(v[0], v[1]), Byte1(v[1], v[2])]
    else [Byte0(v[0], v[1]), Byte1(v[1], v[2]), Byte2(v[2], v[3])] + Pack(v[4..])
  }

  /** `Buffer.from(text, 'base64')`, which accepts any text. */
  function Decode(s: string): seq<Byte> { Pack(Sextets(s)) }

  lemma {:induction false} SextetsConcat(a: string, b: string)
    ensures Sextets(a + b) == Sextets(a) + Sextets(b)
  {
    if a == "" {
      assert a + b == b;
    } else {
      assert (a + b)[0] == a[0] && (a + b)[1..] == a[1..] + b;
      SextetsConcat(a[1..], b);
    }
  }

  lemma SextetsOfFour(a: char, b: char, c: char, d: char)
    ensures Sextets([a, b, c, d]) == Sextets([a]) + Sextets([b]) + Sextets([c]) + Sextets([d])
  {
    SextetsConcat([a], [b]);
    SextetsConcat([a, b], [c]);
    SextetsConcat([a, b, c], [d]);
    assert [a] + [b] == [a, b] && [a, b] + [c] == [a, b, c] && [a, b, c] + [d] == [a, b, c, d];
  }

  lemma SextetsOfOne(c: char)
    ensures Sextets([c]) == if ValueOf(c).Some? then [ValueOf(c).value] else []
  {
    assert [c][1..] == "";
  }

  lemma SextetsOfGroup(w: Sextet, x: Sextet, y: Sextet, z: Sextet)
    ensures Sextets([Character(w), Character(x), Character(y), Character(z)]) == [w, x, y, z]
  {
    SextetsOfFour(Character(w), Character(x), Character(y), Character(z));
    SextetsOfOne(Character(w));
    SextetsOfOne(Character(x));
    SextetsOfOne(Character(y));
    SextetsOfOne(Character(z));
  }

  lemma SextetsOfPadded(w: Sextet, x: Sextet, y: Option<Sextet>)
    ensures y.None? ==> Sextets([Character(w), Character(x), '=', '=']) == [w, x]
    ensures y.Some? ==> Sextets([Character(w), Character(x), Character(y.value), '=']) == [w, x, y.value]
  {
    SextetsOfOne(Character(w));
    SextetsOfOne(Character(x));
    SextetsOfOne('=');
    SextetsOfFour(Character(w), Character(x), '=', '=');
    if y.Some? {
      SextetsOfOne(Character(y.value));
      SextetsOfFour(Character(w), Character(x), Character(y.value), '=');
    }
  }

  lemma GroupRoundTrip(a: Byte, b: Byte, c: Byte)
    ensures Byte0(Sextet0(a), Sextet1(a, b)) == a && Byte1(Sextet1(a, b), Sextet2(b, c)) == b
            && Byte2(Sextet2(b, c), Sextet3(c)) == c
  {}

  lemma PackGroup(w: Sextet, x: Sextet, y: Sextet, z: Sextet, rest: seq<Sextet>)
    ensures Pack([w, x, y, z] + rest) == [Byte0(w, x), Byte1(x, y), Byte2(y, z)] + Pack(rest)
  {
    assert ([w, x, y, z] + rest)[4..] == rest;
  }

  /** Every byte sequence survives the encoding. */
  lemma {:induction false} DecodeEncode(bytes: seq<Byte>)
    ensures Decode(Encode(bytes)) == bytes
  {
    hide Sextets, Character, Sextet0, Sextet1, Sextet2, Sextet3, Byte0, Byte1, Byte2;
    if bytes == [] {
      EmptyRoundTrip();
    } else if |bytes| == 1 {
      SextetsOfPadded(Sextet0(bytes[0]), Sextet1(bytes[0], 0), None);
      GroupRoundTrip(bytes[0], 0, 0);
    } else if |bytes| == 2 {
      SextetsOfPadded(Sextet0(bytes[0]), Sextet1(bytes[0], bytes[1]), Some(Sextet2(bytes[1], 0)));
      GroupRoundTrip(bytes[0], bytes[1], 0);
    } else {
      var a, b, c, rest := bytes[0], bytes[1], bytes[2], bytes[3..];
      DecodeEncode(rest);
      SextetsConcat(EncodeGroup(a, b, c), Encode(rest));
      SextetsOfGroup(Sextet0(a), Sextet1(a, b), Sextet2(b, c), Sextet3(c));
      PackGroup(Sextet0(a), Sextet1(a, b), Sextet2(b, c), Sextet3(c), Sextets(Encode(rest)));
      GroupRoundTrip(a, b, c);
      assert bytes == [a, b, c] + rest;
    }
  }

  lemma EmptyRoundTrip()
    ensures Decode("") == []
  {}

  // ---------------------------------------------------------------- what the core answers

  datatype Artifact = Artifact(id: nat, size: int, digest: Digest)

  datatype Chunk = Chunk(artifact: Artifact, offset: int, data: string)

  const CHUNK := 65536

  function Least(a: int, b: int): int { if a < b then a else b }

  /** `read`: absent when the stored file is not the size it was recorded with. */
  function Read(artifact: Artifact, stored: seq<Byte>, offset: nat, length: nat): Option<Chunk> {
    if |stored| != artifact.size then None
    else
      var count := Least(length, if offset < artifact.size then artifact.size - offset else 0);
      Some(Chunk(artifact, offset, Encode(if count == 0 then [] else stored[offset..offset + count])))
  }

  // ---------------------------------------------------------------- the download

  datatype Delivery = Failed | Reused | Published

  /** `Number.MAX_SAFE_INTEGER`. */
  const MAX_SAFE_INTEGER := 9007199254740991

  /** The first answer describes the artifact that was asked for. */
  predicate Describes(first: Option<Chunk>, id: nat) {
    first.Some? && first.value.artifact.id == id && 0 <= first.value.artifact.size <= MAX_SAFE_INTEGER
  }

  /** There is a file at the output already, it may not be replaced, and it has the declared digest. */
  predicate Reuses(files: map<Path, seq<Byte>>, output: Path, overwrite: bool, hash: seq<Byte> -> Digest,
                   first: Option<Chunk>, id: nat) {
    Describes(first, id) && output in files && !overwrite && hash(files[output]) == first.value.artifact.digest
  }

  /** A reply under which a file of any other size than the declared one is delivered as the artifact. */
  lemma WrongSizeIsReused(output: Path, existing: seq<Byte>, hash: seq<Byte> -> Digest, id: nat, size: nat)
    requires size <= MAX_SAFE_INTEGER && size != |existing|
    ensures var reply := Chunk(Artifact(id, size, hash(existing)), 0, "");
            Reuses(map[output := existing], output, false, hash, Some(reply), id) && |existing| != reply.artifact.size
  {}

  class Disk {
    var files: map<Path, seq<Byte>>

    /** `writeSync`, which may write less than it was given. */
    method WriteSome(path: Path, bytes: seq<Byte>, written: nat) returns (count: nat)
      requires path in files && written < |bytes|
      modifies this
      ensures 1 <= count <= |bytes| - written
      ensures files == old(files)[path := old(files)[path] + bytes[written..written + count]]
    {
      count :| 1 <= count <= |bytes| - written;
      files := files[path := files[path] + bytes[written..written + count]];
    }

    method WriteAll(path: Path, bytes: seq<Byte>)
      requires path in files
      modifies this
      ensures files == old(files)[path := old(files)[path] + bytes]
    {
      var written := 0;
      assert old(files)[path] + [] == old(files)[path] && bytes[..0] == [];
      while written < |bytes|
        invariant 0 <= written <= |bytes|
        invariant path in files && files == old(files)[path := old(files)[path] + bytes[..written]]
      {
        var count := WriteSome(path, bytes, written);
        assert bytes[..written] + bytes[written..written + count] == bytes[..written + count];
        assert old(files)[path] + bytes[..written] + bytes[written..written + count]
               == old(files)[path] + bytes[..written + count];
        written := written + count;
      }
      assert bytes[..|bytes|] == bytes;
    }

    /**
     `download`. `server` is what the n-th call answers for an offset, absent when the call fails;
     `appeared` is a file somebody else puts at the output path before it is published. Whatever the
     server answers, the output is either complete with the declared size and digest or left alone,
     and no partial file stays behind. Only a file that was there already may be delivered with another
     size than the declared one. Against the core's own `read` the output is the stored bytes.
     */
    method Download(id: nat, output: Path, overwrite: bool, partial: Path, hash: seq<Byte> -> Digest,
                    server: (nat, nat) -> Option<Chunk>, appeared: Option<seq<Byte>>, ghost stored: seq<Byte>)
      returns (delivery: Delivery, artifact: Artifact)
      requires partial !in files && partial != output
      modifies this
      ensures delivery.Published? ==>
                output in files && |files[output]| == artifact.size && hash(files[output]) == artifact.digest
                    && artifact.id == id
                && files == old(files)[output := files[output]]
      ensures delivery.Reused? <==> Reuses(old(files), output, overwrite, hash, server(0, 0), id)
      ensures delivery.Reused? ==> files == old(files) && artifact == server(0, 0).value.artifact
      ensures delivery.Published? ==>
                Describes(server(0, 0), id) && artifact == server(0, 0).value.artifact
                && (overwrite || output !in old(files))
      ensures !delivery.Failed? ==>
                output in files && (|files[output]| == artifact.size <==>
                                    (delivery.Reused? ==> |old(files)[output]| == artifact.size))
      ensures delivery.Failed? ==>
                files == old(files) || (appeared.Some? && files == old(files)[output := appeared.value])
      ensures Honest(server, id, stored, hash) && |stored| <= MAX_SAFE_INTEGER
              && (overwrite || (output !in old(files) && appeared.None?)) ==>
                delivery.Published? && files[output] == stored
    {
      hide HonestAt;
      artifact := Artifact(id, 0, 0);
      var first := server(0, 0);
      HonestFirst(server, id, stored, hash);
      hide Honest;
      if first.None? { return Failed, artifact; }
      artifact := first.value.artifact;
      if artifact.id != id || artifact.size < 0 || artifact.size > MAX_SAFE_INTEGER {
        return Failed, artifact;
      }
      if output in files && !overwrite {
        if hash(files[output]) != artifact.digest { return Failed, artifact; }
        return Reused, artifact;
      }
      delivery := Fetch(id, artifact, output, overwrite, partial, hash, server, first.value, appeared, stored);
    }

    /** The chunks are received next to the output and published in one step, or thrown away. */
    method Fetch(id: nat, artifact: Artifact, output: Path, overwrite: bool, partial: Path, hash: seq<Byte> -> Digest,
                 server: (nat, nat) -> Option<Chunk>, first: Chunk, appeared: Option<seq<Byte>>,
                     ghost stored: seq<Byte>)
      returns (delivery: Delivery)
      requires partial !in files && partial != output && server(0, 0) == Some(first) && first.artifact == artifact
               && artifact.size >= 0
      modifies this
      ensures !delivery.Reused?
      ensures delivery.Published? ==>
                output in files && |files[output]| == artifact.size && hash(files[output]) == artifact.digest
                    && files == old(files)[output := files[output]]
      ensures delivery.Failed? ==>
                files == old(files) || (appeared.Some? && files == old(files)[output := appeared.value])
      ensures Honest(server, id, stored, hash) && (overwrite || (output !in old(files) && appeared.None?)) ==>
                delivery.Published? && files[output] == stored
    {
      hide Honest;
      files := files[partial := []];
      var done := ReceiveAll(id, artifact, partial, hash, server, first, stored);
      if appeared.Some? { files := files[output := appeared.value]; }
      if done && (overwrite || output !in files) {
        files := files[output := files[partial]];
        delivery := Published;
      } else {
        delivery := Failed;
      }
      files := files - {partial};
      RemovedPartial(old(files), files, output, partial, appeared);
    }

    /** The chunk loop: it ends with all the bytes in the partial file and their digest right, or fails. */
    method ReceiveAll(id: nat, artifact: Artifact, partial: Path, hash: seq<Byte> -> Digest,
                      server: (nat, nat) -> Option<Chunk>,
                      first: Chunk, ghost stored: seq<Byte>) returns (ok: bool)
      requires partial in files && files[partial] == [] && server(0, 0) == Some(first) && first.artifact == artifact
               && artifact.size >= 0
      modifies this
      ensures files.Keys == old(files).Keys && forall p <- files :: p != partial ==> files[p] == old(files)[p]
      ensures ok ==> |files[partial]| == artifact.size && hash(files[partial]) == artifact.digest
      ensures Honest(server, id, stored, hash) ==> ok && files[partial] == stored
    {
      var offset, step := 0, 0;
      var hashed: seq<Byte> := [];
      var chunk := first;
      assert Honest(server, id, stored, hash) ==> HonestAt(server, id, stored, hash, 0, 0);
      while offset < artifact.size
        invariant 0 <= offset <= artifact.size && offset == |hashed|
        invariant files.Keys == old(files).Keys && files[partial] == hashed
        invariant forall p <- files :: p != partial ==> files[p] == old(files)[p]
        invariant Honest(server, id, stored, hash) ==>
                    artifact == Artifact(id, |stored|, hash(stored)) && hashed == stored[..offset] &&
                    (offset < artifact.size ==> Some(chunk) == Read(artifact, stored, offset, CHUNK))
        decreases artifact.size - offset
      {
        if chunk.offset != offset || chunk.artifact.digest != artifact.digest || chunk.artifact.size != artifact.size {
          return false;
        }
        var bytes := Decode(chunk.data);
        if Honest(server, id, stored, hash) { HonestChunk(artifact, stored, offset); }
        if |bytes| == 0 || |bytes| > CHUNK || offset + |bytes| > artifact.size { return false; }
        WriteAll(partial, bytes);
        hashed := hashed + bytes;
        offset := offset + |bytes|;
        if offset < artifact.size {
          step := step + 1;
          var next := server(step, offset);
          assert Honest(server, id, stored, hash) ==> HonestAt(server, id, stored, hash, step, offset);
          if next.None? { return false; }
          chunk := next.value;
        }
      }
      if Honest(server, id, stored, hash) { assert stored[..|stored|] == stored; }
      return hash(hashed) == artifact.digest;
    }
  }

  /** The server is a core that holds `stored` under this identity. */
  predicate HonestAt(server: (nat, nat) -> Option<Chunk>, id: nat, stored: seq<Byte>, hash: seq<Byte> -> Digest,
                     step: nat, offset: nat) {
    server(step, offset) == Read(Artifact(id, |stored|, hash(stored)), stored, offset, CHUNK)
  }

  ghost predicate Honest(server: (nat, nat) -> Option<Chunk>, id: nat, stored: seq<Byte>, hash: seq<Byte> -> Digest) {
    forall step: nat, offset: nat :: HonestAt(server, id, stored, hash, step, offset)
  }

  lemma HonestFirst(server: (nat, nat) -> Option<Chunk>, id: nat, stored: seq<Byte>, hash: seq<Byte> -> Digest)
    ensures Honest(server, id, stored, hash) ==>
              server(0, 0).Some? && server(0, 0).value.artifact == Artifact(id, |stored|, hash(stored))
  {
    assert Honest(server, id, stored, hash) ==> HonestAt(server, id, stored, hash, 0, 0);
  }

  lemma HonestChunk(artifact: Artifact, stored: seq<Byte>, offset: nat)
    requires artifact.size == |stored| && offset < |stored|
    ensures var chunk := Read(artifact, stored, offset, CHUNK).value;
            var bytes := Decode(chunk.data);
            && 0 < |bytes| <= CHUNK && offset + |bytes| <= |stored| && bytes == stored[offset..offset + |bytes|]
            && stored[..offset] + bytes == stored[..offset + |bytes|]
  {
    hide Encode, Decode;
    var count := Least(CHUNK, |stored| - offset);
    DecodeEncode(stored[offset..offset + count]);
  }

  lemma RemovedPartial(before: map<Path, seq<Byte>>, after: map<Path, seq<Byte>>, output: Path, partial: Path,
                       appeared: Option<seq<Byte>>)
    requires partial !in before && partial != output && partial !in after
    requires after.Keys == before.Keys || after.Keys == before.Keys + {output}
    requires forall p <- after :: p != output ==> p in before && after[p] == before[p]
    ensures output in after ==> after == before[output := after[output]]
    ensures output !in after || (output in before && after[output] == before[output]) ==> after == before
  {}

  // ---------------------------------------------------------------- the store

  /** A content-addressed store: every file lies at the path of its own digest. */
  class Store {
    var files: map<Digest, seq<Byte>>
    const hash: seq<Byte> -> Digest

    constructor (hash: seq<Byte> -> Digest)
      ensures files == map[] && this.hash == hash
    {
      this.hash := hash;
      files := map[];
    }

    /** `#storeContent`: content that is there is checked, never rewritten; what is new is written whole. */
    method StoreContent(bytes: seq<Byte>) returns (stored: Option<Digest>)
      modifies `files
      ensures stored.Some? ==>
                stored.value == hash(bytes) && stored.value in files && |files[stored.value]| == |bytes|
                && hash(files[stored.value]) == hash(bytes)
      ensures forall d <- old(files) :: d in files && files[d] == old(files)[d]
      ensures hash(bytes) !in old(files) ==> stored.Some? && files == old(files)[hash(bytes) := bytes]
      ensures hash(bytes) in old(files) ==> files == old(files)
    {
      var digest := hash(bytes);
      if digest in files {
        if |files[digest]| != |bytes| || hash(files[digest]) != digest { return None; }
        return Some(digest);
      }
      files := files[digest := bytes];
      return Some(digest);
    }
  }
}
