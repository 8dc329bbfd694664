/** Ogg packets: reassembly across pages (sections 5 and 6 of RFC 3533) and the comment header (section 5.2 of
    RFC 7845), read as far as telling a voice note from music needs. */
module Ogg {
  import opened Prelude
  import opened Octets

  const HEADER_BYTES := 65536

  function Ascii(s: string): (r: Bytes)
    ensures |r| == |s|
  {
    seq(|s|, i requires 0 <= i < |s| => s[i] as int % 256)
  }

  function StartsWith(data: Bytes, magic: Bytes): bool {
    |magic| <= |data| && data[..|magic|] == magic
  }

  // ---- Pages ----

  /** A page: its flags, the granule position, the stream, the sequence number and checksum, and its segments. */
  datatype Page = Page(flags: Byte, granule: Bytes, serial: Bytes, tail: Bytes, segs: seq<Bytes>)

  predicate PageOk(p: Page) {
    && |p.granule| == 8 && |p.serial| == 4 && |p.tail| == 8 && |p.segs| <= 255
    && forall i :: 0 <= i < |p.segs| ==> |p.segs[i]| <= 255
  }

  predicate Begins(p: Page) { p.flags / 2 % 2 == 1 }

  predicate Continues(p: Page) { p.flags % 2 == 1 }

  function Join(segs: seq<Bytes>): Bytes {
    if segs == [] then [] else segs[0] + Join(segs[1..])
  }

  function Lacing(segs: seq<Bytes>): (r: Bytes)
    requires forall i :: 0 <= i < |segs| ==> |segs[i]| <= 255
    ensures |r| == |segs|
  {
    if segs == [] then [] else [|segs[0]|] + Lacing(segs[1..])
  }

  function Sum(lacing: Bytes): nat {
    if lacing == [] then 0 else lacing[0] + Sum(lacing[1..])
  }

  function Split(lacing: Bytes, body: Bytes): seq<Bytes>
    requires Sum(lacing) <= |body|
  {
    if lacing == [] then []
    else [body[..lacing[0]]] + Split(lacing[1..], body[lacing[0]..])
  }

  function Header(p: Page): Bytes
    requires PageOk(p)
  {
    Ascii("OggS") + [0, p.flags] + p.granule + p.serial + p.tail + [|p.segs|]
  }

  function PageBytes(p: Page): Bytes
    requires PageOk(p)
  {
    Header(p) + (Lacing(p.segs) + Join(p.segs))
  }

  /** The page at the front of some data, and how many bytes it takes. */
  function ParsePage(data: Bytes): Option<(Page, nat)> {
    if |data| < 27 || data[..4] != Ascii("OggS") || data[4] != 0 then None
    else
      var count := data[26];
      if |data| < 27 + count then None
      else
        var lacing := data[27..27 + count];
        var end := 27 + count + Sum(lacing);
        if end > |data| then None
        else Some((Page(data[5], data[6..14], data[14..18], data[18..26], Split(lacing, data[27 + count..])), end))
  }

  lemma FrontSeg(head: Bytes, tail: Bytes, rest: Bytes)
    ensures ((head + tail) + rest)[..|head|] == head && ((head + tail) + rest)[|head|..] == tail + rest
  {
  }

  lemma {:induction false} SplitJoin(segs: seq<Bytes>, rest: Bytes)
    requires forall i :: 0 <= i < |segs| ==> |segs[i]| <= 255
    ensures Sum(Lacing(segs)) == |Join(segs)|
    ensures Split(Lacing(segs), Join(segs) + rest) == segs
  {
    if segs == [] {
    } else {
      var head, tail := segs[0], segs[1..];
      SplitJoin(tail, rest);
      FrontSeg(head, Join(tail), rest);
    }
  }

  /** Where each part of a page header lies. */
  lemma HeaderParts(p: Page, rest: Bytes)
    requires PageOk(p)
    ensures var data := Header(p) + rest;
      && |Header(p)| == 27 && data[..4] == Ascii("OggS") && data[4] == 0 && data[5] == p.flags
      && data[6..14] == p.granule && data[14..18] == p.serial && data[18..26] == p.tail
      && data[26] == |p.segs| && data[27..] == rest
  {
  }

  lemma BodyParts(lacing: Bytes, body: Bytes, rest: Bytes, data: Bytes)
    requires |data| >= 27 && data[27..] == (lacing + body) + rest
    ensures |data| == 27 + |lacing| + |body| + |rest|
    ensures data[27..27 + |lacing|] == lacing && data[27 + |lacing|..] == body + rest
  {
    var all := data[27..];
    assert all[..|lacing|] == lacing && all[|lacing|..] == body + rest;
    assert data[27..27 + |lacing|] == all[..|lacing|] && data[27 + |lacing|..] == all[|lacing|..];
  }

  lemma PageRoundTrip(p: Page, rest: Bytes)
    requires PageOk(p)
    ensures ParsePage(PageBytes(p) + rest) == Some((p, |PageBytes(p)|))
    ensures (PageBytes(p) + rest)[|PageBytes(p)|..] == rest
  {
    var lacing, body := Lacing(p.segs), Join(p.segs);
    var data := PageBytes(p) + rest;
    assert data == Header(p) + ((lacing + body) + rest);
    HeaderParts(p, (lacing + body) + rest);
    BodyParts(lacing, body, rest, data);
    SplitJoin(p.segs, rest);
  }

  // ---- Segments to packets ----

  /** A packet being put together, and the ones completed. */
  datatype Scan = Scan(open: Bytes, done: seq<Bytes>)

  /** One segment: a full one leaves the packet open. */
  function Step(c: Scan, seg: Bytes): Scan {
    if |seg| < 255 then Scan([], c.done + [c.open + seg]) else Scan(c.open + seg, c.done)
  }

  /** Take segments until there are `wanted` packets. */
  function ScanSegs(c: Scan, segs: seq<Bytes>, wanted: nat): Scan
    decreases |segs|
  {
    if segs == [] || |c.done| >= wanted then c else ScanSegs(Step(c, segs[0]), segs[1..], wanted)
  }

  function ScanAll(c: Scan, segs: seq<Bytes>): Scan
    decreases |segs|
  {
    if segs == [] then c else ScanAll(Step(c, segs[0]), segs[1..])
  }

  lemma {:induction false} ScanAppends(c: Scan, a: seq<Bytes>, b: seq<Bytes>)
    ensures ScanAll(c, a + b) == ScanAll(ScanAll(c, a), b)
    decreases |a|
  {
    if a == [] {
      assert a + b == b;
    } else {
      assert (a + b)[1..] == a[1..] + b;
      ScanAppends(Step(c, a[0]), a[1..], b);
    }
  }

  /** Completed packets are only added to; stopping early keeps the ones wanted. */
  lemma {:induction false} ScanStops(c: Scan, segs: seq<Bytes>, wanted: nat)
    requires |c.done| < wanted
    ensures c.done <= ScanAll(c, segs).done
    ensures if |ScanAll(c, segs).done| < wanted then ScanSegs(c, segs, wanted) == ScanAll(c, segs)
            else ScanSegs(c, segs, wanted).done == ScanAll(c, segs).done[..wanted]
    decreases |segs|
  {
    if segs == [] {
    } else {
      var next := Step(c, segs[0]);
      ScanGrows(next, segs[1..]);
      if |next.done| < wanted { ScanStops(next, segs[1..], wanted); }
    }
  }

  lemma {:induction false} ScanGrows(c: Scan, segs: seq<Bytes>)
    ensures c.done <= ScanAll(c, segs).done
    decreases |segs|
  {
    if segs == [] {
    } else {
      ScanGrows(Step(c, segs[0]), segs[1..]);
    }
  }

  /** A packet as segments of 255 bytes and one shorter. */
  function Lace(packet: Bytes): seq<Bytes> {
    if |packet| < 255 then [packet] else [packet[..255]] + Lace(packet[255..])
  }

  function LaceAll(packets: seq<Bytes>): seq<Bytes> {
    if packets == [] then [] else Lace(packets[0]) + LaceAll(packets[1..])
  }

  lemma {:induction false} LaceScans(packet: Bytes, open: Bytes, done: seq<Bytes>)
    ensures ScanAll(Scan(open, done), Lace(packet)) == Scan([], done + [open + packet])
    decreases |packet|
  {
    if |packet| >= 255 {
      var head, tail := packet[..255], packet[255..];
      LaceScans(tail, open + head, done);
      assert Lace(packet)[1..] == Lace(tail);
      assert (open + head) + tail == open + packet;
    }
  }

  lemma {:induction false} LaceAllScans(packets: seq<Bytes>, done: seq<Bytes>)
    ensures ScanAll(Scan([], done), LaceAll(packets)) == Scan([], done + packets)
  {
    if packets != [] {
      ScanAppends(Scan([], done), Lace(packets[0]), LaceAll(packets[1..]));
      LaceScans(packets[0], [], done);
      assert [] + packets[0] == packets[0];
      LaceAllScans(packets[1..], done + [packets[0]]);
      assert (done + [packets[0]]) + packets[1..] == done + packets;
    } else {
      assert done + packets == done;
    }
  }

  // ---- Pages to packets ----

  /** What one page made of the reader: the stream it follows, its scan, and the bytes taken. */
  datatype Turn = Turn(serial: Option<Bytes>, scan: Scan, size: nat)

  function TurnPage(data: Bytes, serial: Option<Bytes>, c: Scan, wanted: nat): (r: Option<Turn>)
    ensures r.Some? ==> 0 < r.value.size <= |data|
  {
    match ParsePage(data)
    case None => None
    case Some((page, size)) =>
      if serial.None? && !Begins(page) then None
      else if page.serial != serial.GetOr(page.serial) then Some(Turn(serial, c, size))
      else if Continues(page) != (c.open != []) then None
      else Some(Turn(Some(page.serial), ScanSegs(c, page.segs, wanted), size))
  }

  /** The reader over the rest of the data. */
  function Packets(data: Bytes, serial: Option<Bytes>, c: Scan, wanted: nat): Option<seq<Bytes>>
    decreases |data|
  {
    if |c.done| >= wanted then Some(c.done)
    else match TurnPage(data, serial, c, wanted)
      case None => None
      case Some(turn) => Packets(data[turn.size..], turn.serial, turn.scan, wanted)
  }

  function AllBytes(pages: seq<Page>): Bytes
    requires forall i :: 0 <= i < |pages| ==> PageOk(pages[i])
  {
    if pages == [] then [] else PageBytes(pages[0]) + AllBytes(pages[1..])
  }

  function SegsOf(pages: seq<Page>, serial: Bytes): seq<Bytes> {
    if pages == [] then []
    else (if pages[0].serial == serial then pages[0].segs else []) + SegsOf(pages[1..], serial)
  }

  /** Each page of the stream says that it continues a packet exactly when one is open. */
  predicate FlagsOk(pages: seq<Page>, serial: Bytes, c: Scan) {
    pages == [] ||
    if pages[0].serial != serial then FlagsOk(pages[1..], serial, c)
    else (Continues(pages[0]) <==> c.open != []) && FlagsOk(pages[1..], serial, ScanAll(c, pages[0].segs))
  }

  /** One written page at the front. */
  lemma PageTaken(page: Page, more: Bytes, serial: Option<Bytes>, c: Scan, wanted: nat)
    requires PageOk(page) && |c.done| < wanted
    ensures Packets(PageBytes(page) + more, serial, c, wanted) ==
      if serial.None? && !Begins(page) then None
      else if page.serial != serial.GetOr(page.serial) then Packets(more, serial, c, wanted)
      else if Continues(page) != (c.open != []) then None
      else Packets(more, Some(page.serial), ScanSegs(c, page.segs, wanted), wanted)
  {
    PageRoundTrip(page, more);
  }

  lemma PrefixCut(a: seq<Bytes>, b: seq<Bytes>, wanted: nat)
    requires a <= b && wanted <= |a|
    ensures a[..wanted] == b[..wanted]
  {
  }

  /** From any point: the packets come out, in order, whatever pages of other streams lie between. */
  lemma {:induction false} PagesScan(pages: seq<Page>, serial: Bytes, c: Scan, wanted: nat, rest: Bytes)
    requires forall i :: 0 <= i < |pages| ==> PageOk(pages[i])
    requires FlagsOk(pages, serial, c) && |c.done| < wanted <= |ScanAll(c, SegsOf(pages, serial)).done|
    ensures Packets(AllBytes(pages) + rest, Some(serial), c, wanted)
      == Some(ScanAll(c, SegsOf(pages, serial)).done[..wanted])
    decreases |pages|
  {
    if pages == [] {
    } else {
      var page, later := pages[0], pages[1..];
      Nested(PageBytes(page), AllBytes(later), rest);
      PageTaken(page, AllBytes(later) + rest, Some(serial), c, wanted);
      if page.serial == serial {
        var next := ScanAll(c, page.segs);
        ScanAppends(c, page.segs, SegsOf(later, serial));
        ScanStops(c, page.segs, wanted);
        ScanGrows(next, SegsOf(later, serial));
        if |next.done| < wanted {
          PagesScan(later, serial, next, wanted, rest);
        } else {
          PrefixCut(next.done, ScanAll(next, SegsOf(later, serial)).done, wanted);
        }
      } else {
        assert SegsOf(pages, serial) == SegsOf(later, serial);
        PagesScan(later, serial, c, wanted, rest);
      }
    }
  }

  /** Reassembly inverts lacing: for any packets, laced and split over any pages, among pages of any other
      streams, followed by anything, the first `wanted` packets of the first stream come back. */
  lemma Reassembles(pages: seq<Page>, packets: seq<Bytes>, wanted: nat, rest: Bytes)
    requires pages != [] && (forall i :: 0 <= i < |pages| ==> PageOk(pages[i]))
    requires Begins(pages[0]) && FlagsOk(pages, pages[0].serial, Scan([], []))
    requires SegsOf(pages, pages[0].serial) == LaceAll(packets) && wanted <= |packets|
    ensures Packets(AllBytes(pages) + rest, None, Scan([], []), wanted) == Some(packets[..wanted])
  {
    var serial := pages[0].serial;
    LaceAllScans(packets, []);
    assert [] + packets == packets;
    if wanted > 0 {
      PagesScan(pages, serial, Scan([], []), wanted, rest);
      Nested(PageBytes(pages[0]), AllBytes(pages[1..]), rest);
      PageTaken(pages[0], AllBytes(pages[1..]) + rest, None, Scan([], []), wanted);
      PageTaken(pages[0], AllBytes(pages[1..]) + rest, Some(serial), Scan([], []), wanted);
    }
  }

  /** Segments taken from the body of one page, until there are `wanted` packets. */
  method TakeSegs(data: Bytes, lacing: Bytes, start: nat, c: Scan, wanted: nat) returns (r: Scan)
    requires |c.done| < wanted && start + Sum(lacing) <= |data|
    ensures r == ScanSegs(c, Split(lacing, data[start..]), wanted)
  {
    var body: nat, current, packets := start, c.open, c.done;
    var i := 0;
    while i < |lacing|
      invariant 0 <= i <= |lacing| && body + Sum(lacing[i..]) <= |data| && |packets| < wanted
      invariant ScanSegs(c, Split(lacing, data[start..]), wanted)
        == ScanSegs(Scan(current, packets), Split(lacing[i..], data[body..]), wanted)
    {
      var size := lacing[i];
      assert lacing[i..][0] == lacing[i] && lacing[i..][1..] == lacing[i + 1..];
      assert data[body..][..size] == data[body..body + size] && data[body..][size..] == data[body + size..];
      current := current + data[body..body + size];
      body := body + size;
      if size < 255 {
        packets := packets + [current];
        current := [];
        if |packets| == wanted { return Scan(current, packets); }
      }
      i := i + 1;
    }
    r := Scan(current, packets);
  }

  /** One page, checked and taken when it belongs to the stream. */
  method TakePage(rest: Bytes, serial: Option<Bytes>, c: Scan, wanted: nat) returns (r: Option<Turn>)
    requires |c.done| < wanted
    ensures r == TurnPage(rest, serial, c, wanted)
  {
    if |rest| < 27 || rest[..4] != Ascii("OggS") || rest[4] != 0 { return None; }
    var flags, count: nat := rest[5], rest[26];
    if |rest| < 27 + count { return None; }
    var lacing := rest[27..27 + count];
    var body := 27 + count;
    var end := body + Sum(lacing);
    if end > |rest| { return None; }
    ghost var page := ParsePage(rest).value.0;
    assert ParsePage(rest) == Some((page, end)) && page.segs == Split(lacing, rest[body..]);
    assert page.flags == flags && page.serial == rest[14..18];
    if serial.None? && flags / 2 % 2 == 0 { return None; }
    var own := serial.GetOr(rest[14..18]);
    if rest[14..18] != own { return Some(Turn(serial, c, end)); }
    if (flags % 2 == 1) != (c.open != []) { return None; }
    var next := TakeSegs(rest, lacing, body, c, wanted);
    r := Some(Turn(Some(own), next, end));
  }

  /** The page at a position: what is read from there is read from behind it, or nothing is. */
  method NextPage(data: Bytes, position: nat, serial: Option<Bytes>, c: Scan, wanted: nat) returns (r: Option<Turn>)
    requires position <= |data| && |c.done| < wanted
    ensures r.None? ==> Packets(data[position..], serial, c, wanted) == None
    ensures r.Some? ==> 0 < r.value.size <= |data| - position
    ensures r.Some? ==>
      Packets(data[position..], serial, c, wanted) ==
      Packets(data[position + r.value.size..], r.value.serial, r.value.scan, wanted)
  {
    r := TakePage(data[position..], serial, c, wanted);
    if r.Some? { assert data[position..][r.value.size..] == data[position + r.value.size..]; }
  }

  /** The first packets of the first stream, or none: a page that is not one, a stream that does not begin, or a
      continuation that does not match. */
  method FirstPackets(data: Bytes, wanted: nat) returns (r: Option<seq<Bytes>>)
    ensures r == Packets(data, None, Scan([], []), wanted)
  {
    var c, serial: Option<Bytes>, position: nat := Scan([], []), None, 0;
    ghost var all, rest := Packets(data, None, c, wanted), data;
    while |c.done| < wanted
      invariant position <= |data| && rest == data[position..] && all == Packets(rest, serial, c, wanted)
      decreases |data| - position
    {
      var turn := NextPage(data, position, serial, c, wanted);
      if turn.None? { return None; }
      rest := data[position + turn.value.size..];
      serial, c, position := turn.value.serial, turn.value.scan, position + turn.value.size;
    }
    r := Some(c.done);
  }

  // ---- The comment header ----

  const MUSIC_TAGS: seq<string> :=
    ["TITLE", "ARTIST", "ALBUM", "ALBUMARTIST", "TRACKNUMBER", "GENRE", "PERFORMER", "COMPOSER"]

  function Upper(name: Bytes): Bytes {
    seq(|name|, i requires 0 <= i < |name| => if 97 <= name[i] <= 122 then name[i] - 32 else name[i])
  }

  /** What comes before the first '=', if there is one. */
  function NameOf(comment: Bytes): Option<Bytes> {
    if comment == [] then None
    else if comment[0] == 61 then Some([])
    else
      var rest := NameOf(comment[1..]);
      if rest.None? then None else Some([comment[0]] + rest.value)
  }

  /** The comment begins with a tag and '=', each letter of the tag in either case. */
  predicate Named(comment: Bytes, tag: string) {
    && |tag| < |comment| && comment[|tag|] == 61
    && forall k :: 0 <= k < |tag| ==> comment[k] == tag[k] as int || comment[k] == tag[k] as int + 32
  }

  predicate MusicNamed(comment: Bytes) { exists t :: 0 <= t < |MUSIC_TAGS| && Named(comment, MUSIC_TAGS[t]) }

  predicate Capitals(tag: string) { forall k :: 0 <= k < |tag| ==> 'A' <= tag[k] <= 'Z' }

  /** The name ends at the first '='. */
  lemma {:induction false} NameDecides(comment: Bytes, name: Bytes)
    ensures NameOf(comment) == Some(name) <==>
      && |name| < |comment| && comment[|name|] == 61 && name == comment[..|name|]
      && forall k :: 0 <= k < |name| ==> comment[k] != 61
    decreases |comment|
  {
    if comment != [] && comment[0] != 61 && name != [] {
      NameDecides(comment[1..], name[1..]);
      assert name == [name[0]] + name[1..];
      if NameOf(comment) == Some(name) {
        assert comment[..|name|] == [comment[0]] + comment[1..][..|name| - 1];
        forall k | 0 <= k < |name| ensures comment[k] != 61 { if k > 0 { assert comment[1..][k - 1] == comment[k]; } }
      }
      if |name| < |comment| && comment[|name|] == 61 && name == comment[..|name|]
        && forall k :: 0 <= k < |name| ==> comment[k] != 61
      {
        assert name[1..] == comment[1..][..|name| - 1] && name[0] == comment[0];
        forall k | 0 <= k < |name[1..]| ensures comment[1..][k] != 61 { assert comment[1..][k] == comment[k + 1]; }
      }
    }
  }

  lemma TagDecides(comment: Bytes, tag: string)
    requires Capitals(tag)
    ensures (NameOf(comment).Some? && Upper(NameOf(comment).value) == Ascii(tag)) <==> Named(comment, tag)
  {
    if NameOf(comment).Some? {
      var name := NameOf(comment).value;
      NameDecides(comment, name);
      if Upper(name) == Ascii(tag) {
        forall k | 0 <= k < |tag| ensures comment[k] == tag[k] as int || comment[k] == tag[k] as int + 32 {
          assert Upper(name)[k] == Ascii(tag)[k];
        }
      }
    }
    if Named(comment, tag) {
      var name := comment[..|tag|];
      NameDecides(comment, name);
      forall k | 0 <= k < |tag| ensures Upper(name)[k] == Ascii(tag)[k] {}
      assert Upper(name) == Ascii(tag);
    }
  }

  /** A comment counts as music exactly if it begins with one of the tags and '=', in whatever case. */
  lemma MusicDecides(comment: Bytes)
    ensures IsMusic(comment) <==> MusicNamed(comment)
  {
    forall t | 0 <= t < |MUSIC_TAGS|
      ensures (NameOf(comment).Some? && Upper(NameOf(comment).value) == Ascii(MUSIC_TAGS[t]))
        <==> Named(comment, MUSIC_TAGS[t])
    {
      TagDecides(comment, MUSIC_TAGS[t]);
    }
  }

  predicate IsMusic(comment: Bytes) {
    NameOf(comment).Some? && exists i :: 0 <= i < |MUSIC_TAGS| && Upper(NameOf(comment).value) == Ascii(MUSIC_TAGS[i])
  }

  function ReadSized(b: Bytes): Result<Parsed<Bytes>> {
    var length :- ReadWord(b, 4);
    ReadBytes(length.rest, length.value)
  }

  /** A sized field is read if its four-byte length and as many bytes are there. */
  lemma SizedDecides(b: Bytes)
    ensures ReadSized(b).Ok? <==> |b| >= 4 && Worth(b[..4]) <= |b| - 4
    ensures ReadSized(b).Ok? ==>
      ReadSized(b).value == Parsed(b[4..4 + Worth(b[..4])], b[4 + Worth(b[..4])..])
  {
    if |b| >= 4 {
      WorthIsLittle(b[..4]);
      if ReadSized(b).Ok? { assert b[4..][..Worth(b[..4])] == b[4..4 + Worth(b[..4])]; }
    }
  }

  /** Whether any of the next comments is a music tag. */
  function AnyMusic(b: Bytes, count: nat): Result<bool> {
    if count == 0 then Ok(false)
    else
      var first :- ReadSized(b);
      var rest :- AnyMusic(first.rest, count - 1);
      Ok(IsMusic(first.value) || rest)
  }

  /** True when no comment is a music tag; an incomplete block says nothing. */
  function NoMusicTags(block: Bytes): Option<bool> {
    var vendor := ReadSized(block);
    if vendor.Err? then None
    else
      var count := ReadWord(vendor.value.rest, 4);
      if count.Err? || count.value.value > |count.value.rest| / 4 then None
      else
        var music := AnyMusic(count.value.rest, count.value.value);
        if music.Err? then None else Some(!music.value)
  }

  predicate Sizable(b: Bytes) { |b| < Limit(4) }

  function WriteSized(b: Bytes): Bytes { Little(|b|, 4) + b }

  function WriteComments(comments: seq<Bytes>): Bytes {
    if comments == [] then [] else WriteSized(comments[0]) + WriteComments(comments[1..])
  }

  function WriteBlock(vendor: Bytes, comments: seq<Bytes>): Bytes {
    WriteSized(vendor) + (Little(|comments|, 4) + WriteComments(comments))
  }

  lemma SizedRoundTrip(b: Bytes, suffix: Bytes)
    requires Sizable(b)
    ensures ReadSized(WriteSized(b) + suffix) == Ok(Parsed(b, suffix))
  {
    assert WriteSized(b) + suffix == Little(|b|, 4) + (b + suffix);
    WordRoundTrip(|b|, 4, b + suffix);
    TakeFront(b, suffix);
  }

  lemma {:induction false} CommentsRead(comments: seq<Bytes>, suffix: Bytes)
    requires forall i :: 0 <= i < |comments| ==> Sizable(comments[i])
    ensures AnyMusic(WriteComments(comments) + suffix, |comments|)
      == Ok(exists i :: 0 <= i < |comments| && IsMusic(comments[i]))
    ensures |WriteComments(comments)| >= 4 * |comments|
  {
    if comments == [] {
    } else {
      var later := comments[1..];
      assert WriteComments(comments) + suffix == WriteSized(comments[0]) + (WriteComments(later) + suffix);
      SizedRoundTrip(comments[0], WriteComments(later) + suffix);
      CommentsRead(later, suffix);
      SomeMusic(comments);
    }
  }

  lemma SomeMusic(comments: seq<Bytes>)
    requires comments != []
    ensures (exists i :: 0 <= i < |comments| && IsMusic(comments[i]))
      == (IsMusic(comments[0]) || exists i :: 0 <= i < |comments[1..]| && IsMusic(comments[1..][i]))
  {
    var later := comments[1..];
    if i :| 0 <= i < |later| && IsMusic(later[i]) { assert IsMusic(comments[i + 1]); }
    if i :| 0 <= i < |comments| && IsMusic(comments[i]) { assert i == 0 || IsMusic(later[i - 1]); }
  }

  /** For any written comment block, the answer is yes exactly when no comment is named by a music tag; text inside
      the vendor string or inside a value never counts, and the count guard never refuses. */
  lemma TagsDecide(vendor: Bytes, comments: seq<Bytes>, suffix: Bytes)
    requires Sizable(vendor) && |comments| < Limit(4)
    requires forall i :: 0 <= i < |comments| ==> Sizable(comments[i])
    ensures NoMusicTags(WriteBlock(vendor, comments) + suffix)
      == Some(forall i :: 0 <= i < |comments| ==> !MusicNamed(comments[i]))
  {
    forall i | 0 <= i < |comments| ensures IsMusic(comments[i]) <==> MusicNamed(comments[i]) {
      MusicDecides(comments[i]);
    }
    var body := Little(|comments|, 4) + (WriteComments(comments) + suffix);
    assert WriteBlock(vendor, comments) + suffix == WriteSized(vendor) + body;
    SizedRoundTrip(vendor, body);
    WordRoundTrip(|comments|, 4, WriteComments(comments) + suffix);
    CommentsRead(comments, suffix);
  }

  /** The cursor over a comment block. */
  class Cursor {
    const block: Bytes
    var at: nat

    predicate Valid()
      reads this
    {
      at <= |block|
    }

    constructor (block: Bytes)
      ensures Valid() && this.block == block && block[at..] == block
    {
      this.block, at := block, 0;
    }

    method Uint32() returns (r: Option<nat>)
      requires Valid()
      modifies this
      ensures Valid()
      ensures var spec := ReadWord(old(block[at..]), 4);
        && (r.Some? <==> spec.Ok?) && (r.Some? ==> spec.value == Parsed(r.value, block[at..]))
    {
      if at + 4 > |block| { return None; }
      assert block[at..][..4] == block[at..at + 4] && block[at..][4..] == block[at + 4..];
      r := Some(FromLittle(block[at..at + 4]));
      at := at + 4;
    }

    method Sized() returns (r: Option<Bytes>)
      requires Valid()
      modifies this
      ensures Valid()
      ensures var spec := ReadSized(old(block[at..]));
        && (r.Some? <==> spec.Ok?) && (r.Some? ==> spec.value == Parsed(r.value, block[at..]))
    {
      var length := Uint32();
      if length.None? || length.value > |block| - at { return None; }
      var n := length.value;
      assert block[at..][..n] == block[at..at + n] && block[at..][n..] == block[at + n..];
      r := Some(block[at..at + n]);
      at := at + n;
    }

    /** One more comment: what is found from here on, given what was found before, is found behind it. */
    method One(count: nat, music: bool) returns (r: Option<bool>)
      requires Valid() && count > 0
      modifies this
      ensures r.None? ==> MusicFrom(old(block[at..]), count, music).Err?
      ensures r.Some? ==>
        Valid() && MusicFrom(old(block[at..]), count, music) == MusicFrom(block[at..], count - 1, r.value)
    {
      var comment := Sized();
      if comment.None? { return None; }
      r := Some(music || IsMusic(comment.value));
    }

    method Any(count: nat) returns (r: Option<bool>)
      requires Valid()
      modifies this
      ensures var spec := AnyMusic(old(block[at..]), count);
        (r.Some? <==> spec.Ok?) && (r.Some? ==> spec.value == r.value)
    {
      MusicFromIs(block[at..], count, false);
      r := All(count);
    }

    method All(count: nat) returns (r: Option<bool>)
      requires Valid()
      modifies this
      ensures var spec := MusicFrom(old(block[at..]), count, false);
        (r.Some? <==> spec.Ok?) && (r.Some? ==> spec.value == r.value)
    {
      var music, left := false, count;
      ghost var all := MusicFrom(block[at..], count, false);
      while left > 0
        invariant Valid() && all == MusicFrom(block[at..], left, music)
      {
        r := One(left, music);
        if r.None? { return; }
        music, left := r.value, left - 1;
      }
      r := Some(music);
    }

    /** The rest of a block that starts here. */
    method NoMusic() returns (r: Option<bool>)
      requires Valid()
      modifies this
      ensures r == NoMusicTags(old(block[at..]))
    {
      var vendor := Sized();
      if vendor.None? { return None; }
      var count := Uint32();
      if count.None? || count.value > (|block| - at) / 4 { return None; }
      var music := Any(count.value);
      r := if music.None? then None else Some(!music.value);
    }
  }

  /** Comments read on from some point, with what was found so far. */
  function MusicFrom(b: Bytes, count: nat, music: bool): Result<bool>
    decreases count
  {
    if count == 0 then Ok(music)
    else
      var first :- ReadSized(b);
      MusicFrom(first.rest, count - 1, music || IsMusic(first.value))
  }

  lemma {:induction false} MusicFromIs(b: Bytes, count: nat, music: bool)
    ensures MusicFrom(b, count, music) ==
      if AnyMusic(b, count).Err? then AnyMusic(b, count) else Ok(music || AnyMusic(b, count).value)
    decreases count
  {
    if count > 0 && ReadSized(b).Ok? {
      var first := ReadSized(b).value;
      MusicFromIs(first.rest, count - 1, music || IsMusic(first.value));
    }
  }

  // ---- Voice or music ----

  /** What the first two packets say: the codec, then its comment header. */
  function Voice(ident: Bytes, comment: Bytes): Option<bool> {
    if StartsWith(ident, Ascii("OpusHead")) then
      if StartsWith(comment, Ascii("OpusTags")) then NoMusicTags(comment[8..]) else None
    else if StartsWith(ident, [1] + Ascii("vorbis")) then
      if StartsWith(comment, [3] + Ascii("vorbis")) then NoMusicTags(comment[7..]) else None
    else None
  }

  /** The part of a file that is looked at. */
  function Head(header: Bytes): Bytes {
    if |header| > HEADER_BYTES then header[..HEADER_BYTES] else header
  }

  /** What the first two packets in the head of a file say. */
  function Verdict(header: Bytes): Option<bool> {
    var packets := Packets(Head(header), None, Scan([], []), 2);
    if packets.Some? && |packets.value| == 2 then Voice(packets.value[0], packets.value[1]) else None
  }

  /** True for voice, false for music, none when the header does not tell. */
  method LooksLikeVoice(header: Bytes) returns (r: Option<bool>)
    ensures r == Verdict(header)
  {
    var data := Head(header);
    var packets := FirstPackets(data, 2);
    if packets.None? { return None; }
    TwoPackets(data, None, Scan([], []), 2);
    var ident, comment := packets.value[0], packets.value[1];
    var skip := 0;
    if StartsWith(ident, Ascii("OpusHead")) && StartsWith(comment, Ascii("OpusTags")) { skip := 8; }
    else if !StartsWith(ident, Ascii("OpusHead")) && StartsWith(ident, [1] + Ascii("vorbis"))
      && StartsWith(comment, [3] + Ascii("vorbis")) { skip := 7; }
    else { return None; }
    var cursor := new Cursor(comment[skip..]);
    r := cursor.NoMusic();
  }

  lemma {:induction false} TwoPackets(data: Bytes, serial: Option<Bytes>, c: Scan, wanted: nat)
    requires |c.done| <= wanted
    ensures Packets(data, serial, c, wanted).Some? ==> |Packets(data, serial, c, wanted).value| == wanted
    decreases |data|
  {
    var turn := TurnPage(data, serial, c, wanted);
    if |c.done| < wanted && turn.Some? {
      ScanBounded(c, ParsePage(data).value.0.segs, wanted);
      TwoPackets(data[turn.value.size..], turn.value.serial, turn.value.scan, wanted);
    }
  }

  lemma {:induction false} ScanBounded(c: Scan, segs: seq<Bytes>, wanted: nat)
    requires |c.done| <= wanted
    ensures |ScanSegs(c, segs, wanted).done| <= wanted
    decreases |segs|
  {
    if segs != [] && |c.done| < wanted { ScanBounded(Step(c, segs[0]), segs[1..], wanted); }
  }

  /** An Opus file, however its header packets were laced, paged and interleaved, and however long it is after the
      pages that hold them: as long as those pages end within the head, the verdict is voice exactly when no comment is
      named by a music tag. */
  lemma VoiceWhenNoMusic(pages: seq<Page>, packets: seq<Bytes>, vendor: Bytes, comments: seq<Bytes>, suffix: Bytes,
    rest: Bytes)
    requires pages != [] && (forall i :: 0 <= i < |pages| ==> PageOk(pages[i]))
    requires Begins(pages[0]) && FlagsOk(pages, pages[0].serial, Scan([], []))
    requires SegsOf(pages, pages[0].serial) == LaceAll(packets) && 2 <= |packets|
    requires StartsWith(packets[0], Ascii("OpusHead"))
    requires packets[1] == Ascii("OpusTags") + (WriteBlock(vendor, comments) + suffix)
    requires Sizable(vendor) && |comments| < Limit(4)
    requires forall i :: 0 <= i < |comments| ==> Sizable(comments[i])
    requires |AllBytes(pages)| <= HEADER_BYTES
    ensures Verdict(AllBytes(pages) + rest) == Some(forall i :: 0 <= i < |comments| ==> !MusicNamed(comments[i]))
  {
    PagesDecide(pages, packets, rest);
    HeadersDecide(packets[0], packets[1], vendor, comments, suffix);
  }

  /** The same for a Vorbis file. */
  lemma VoiceInVorbis(pages: seq<Page>, packets: seq<Bytes>, vendor: Bytes, comments: seq<Bytes>, suffix: Bytes,
    rest: Bytes)
    requires pages != [] && (forall i :: 0 <= i < |pages| ==> PageOk(pages[i]))
    requires Begins(pages[0]) && FlagsOk(pages, pages[0].serial, Scan([], []))
    requires SegsOf(pages, pages[0].serial) == LaceAll(packets) && 2 <= |packets|
    requires StartsWith(packets[0], [1] + Ascii("vorbis"))
    requires packets[1] == [3] + Ascii("vorbis") + (WriteBlock(vendor, comments) + suffix)
    requires Sizable(vendor) && |comments| < Limit(4)
    requires forall i :: 0 <= i < |comments| ==> Sizable(comments[i])
    requires |AllBytes(pages)| <= HEADER_BYTES
    ensures Verdict(AllBytes(pages) + rest) == Some(forall i :: 0 <= i < |comments| ==> !MusicNamed(comments[i]))
  {
    PagesDecide(pages, packets, rest);
    VorbisDecides(packets[0], packets[1], vendor, comments, suffix);
  }

  /** The verdict is what the first two packets say. */
  lemma PagesDecide(pages: seq<Page>, packets: seq<Bytes>, rest: Bytes)
    requires pages != [] && (forall i :: 0 <= i < |pages| ==> PageOk(pages[i]))
    requires Begins(pages[0]) && FlagsOk(pages, pages[0].serial, Scan([], []))
    requires SegsOf(pages, pages[0].serial) == LaceAll(packets) && 2 <= |packets|
    requires |AllBytes(pages)| <= HEADER_BYTES
    ensures Verdict(AllBytes(pages) + rest) == Voice(packets[0], packets[1])
  {
    var kept := HeadKeeps(AllBytes(pages), rest);
    Reassembles(pages, packets, 2, kept);
    assert packets[..2] == [packets[0], packets[1]];
  }

  lemma HeadersDecide(ident: Bytes, comment: Bytes, vendor: Bytes, comments: seq<Bytes>, suffix: Bytes)
    requires StartsWith(ident, Ascii("OpusHead"))
      && comment == Ascii("OpusTags") + (WriteBlock(vendor, comments) + suffix)
    requires Sizable(vendor) && |comments| < Limit(4)
    requires forall i :: 0 <= i < |comments| ==> Sizable(comments[i])
    ensures Voice(ident, comment) == Some(forall i :: 0 <= i < |comments| ==> !MusicNamed(comments[i]))
  {
    TakeFront(Ascii("OpusTags"), WriteBlock(vendor, comments) + suffix);
    TagsDecide(vendor, comments, suffix);
  }

  lemma VorbisDecides(ident: Bytes, comment: Bytes, vendor: Bytes, comments: seq<Bytes>, suffix: Bytes)
    requires StartsWith(ident, [1] + Ascii("vorbis"))
      && comment == [3] + Ascii("vorbis") + (WriteBlock(vendor, comments) + suffix)
    requires Sizable(vendor) && |comments| < Limit(4)
    requires forall i :: 0 <= i < |comments| ==> Sizable(comments[i])
    ensures Voice(ident, comment) == Some(forall i :: 0 <= i < |comments| ==> !MusicNamed(comments[i]))
  {
    TakeFront([3] + Ascii("vorbis"), WriteBlock(vendor, comments) + suffix);
    TagsDecide(vendor, comments, suffix);
    assert ident[0] == 1 && Ascii("OpusHead")[0] == 79;
  }

  /** Cutting a file to its head only cuts what comes after a front that fits. */
  lemma HeadKeeps(front: Bytes, rest: Bytes) returns (kept: Bytes)
    requires |front| <= HEADER_BYTES
    ensures Head(front + rest) == front + kept
  {
    kept := if |front + rest| > HEADER_BYTES then rest[..HEADER_BYTES - |front|] else rest;
  }
}
