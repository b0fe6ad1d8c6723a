/**
 Attachments on their way to the agent: split between native blocks and paths, and turned
 into prompt blocks without losing or doubling one.
 */
module Attachments {
  import opened Wire
  import opened Media

  datatype Kind = Image | Audio
  datatype Caps = Caps(image: bool, audio: bool)
  datatype Format = Format(mime: string, kind: Kind)
  datatype Attachment = Attachment(path: string, format: Format)
  datatype Partition = Partition(content: string, pathFiles: seq<string>, media: seq<Attachment>)

  const NO_CAPS := Caps(false, false)

  /** How the file system and the agent's capabilities classify a path; any verdict is possible. */
  type Classifier = string -> Option<Format>

  function PathsOf(files: seq<string>, classify: Classifier): seq<string> {
    if files == [] then [] else (if classify(files[0]).None? then [files[0]] else []) + PathsOf(files[1..], classify)
  }

  function MediaOf(files: seq<string>, classify: Classifier): seq<Attachment> {
    if files == [] then []
    else
      (if classify(files[0]).Some? then [Attachment(files[0], classify(files[0]).value)] else [])
      + MediaOf(files[1..], classify)
  }

  /** `files` is these paths and these attachments woven together, each in its own order. */
  predicate Woven(files: seq<string>, paths: seq<string>, media: seq<Attachment>) {
    if files == [] then paths == [] && media == []
    else
      || (paths != [] && paths[0] == files[0] && Woven(files[1..], paths[1..], media))
      || (media != [] && media[0].path == files[0] && Woven(files[1..], paths, media[1..]))
  }

  lemma {:induction false} SplitIsWoven(files: seq<string>, classify: Classifier)
    ensures Woven(files, PathsOf(files, classify), MediaOf(files, classify))
  {
    if files != [] {
      var p, m := PathsOf(files[1..], classify), MediaOf(files[1..], classify);
      SplitIsWoven(files[1..], classify);
      if classify(files[0]).None? {
        assert ([files[0]] + p)[1..] == p && [] + m == m;
      } else {
        assert ([Attachment(files[0], classify(files[0]).value)] + m)[1..] == m && [] + p == p;
      }
    }
  }

  lemma {:induction false} SplitIsClassified(files: seq<string>, classify: Classifier)
    ensures forall f | f in PathsOf(files, classify) :: classify(f) == None
    ensures forall a | a in MediaOf(files, classify) :: classify(a.path) == Some(a.format)
  {
    if files != [] {
      SplitIsClassified(files[1..], classify);
    }
  }

  lemma {:induction false} PathsSnoc(files: seq<string>, f: string, classify: Classifier)
    ensures PathsOf(files + [f], classify) == PathsOf(files, classify) + if classify(f).None? then [f] else []
  {
    if files == [] {
      assert [] + [f] == [f] && [f][1..] == [];
    } else {
      assert (files + [f])[1..] == files[1..] + [f] && (files + [f])[0] == files[0];
      PathsSnoc(files[1..], f, classify);
    }
  }

  lemma {:induction false} MediaSnoc(files: seq<string>, f: string, classify: Classifier)
    ensures MediaOf(files + [f], classify)
            == MediaOf(files, classify) + if classify(f).Some? then [Attachment(f, classify(f).value)] else []
  {
    if files == [] {
      assert [] + [f] == [f] && [f][1..] == [];
    } else {
      assert (files + [f])[1..] == files[1..] + [f] && (files + [f])[0] == files[0];
      MediaSnoc(files[1..], f, classify);
    }
  }

  lemma {:induction false} SplitWithoutMedia(files: seq<string>, classify: Classifier)
    requires MediaOf(files, classify) == []
    ensures PathsOf(files, classify) == files
  {
    if files != [] {
      SplitWithoutMedia(files[1..], classify);
    }
  }

  /** `p` is the message split: everything stays a path unless the agent takes bytes of its kind. */
  predicate Partitions(content: string, files: seq<string>, caps: Caps, classify: Classifier, p: Partition) {
    && (files == [] || caps == NO_CAPS ==> p == Partition(content, files, []))
    && (files != [] && caps != NO_CAPS ==> p.pathFiles == PathsOf(files, classify) && p.media == MediaOf(files, classify))
    && (p.media == [] ==> p.content == content && p.pathFiles == files)
    && (p.media != [] ==> p.content == AppendMarker(StripMarker(content, files), p.pathFiles))
  }

  /**
   Split the attachments, and rewrite the message's block to list only those that stay paths.
   On a message that carries exactly its attachments, the rewritten message carries exactly
   the remaining paths.
   */
  method PartitionMedia(content: string, files: seq<string>, caps: Caps, classify: Classifier)
    returns (p: Partition)
    ensures Partitions(content, files, caps, classify, p)
    ensures Woven(files, p.pathFiles, p.media)
    ensures files != [] && caps != NO_CAPS ==>
              && (forall f | f in p.pathFiles :: classify(f) == None)
              && (forall a | a in p.media :: classify(a.path) == Some(a.format))
    ensures forall text | content == AppendMarker(text, files) && (forall f | f in files :: Carriable(f)) ::
              p.content == AppendMarker(text, p.pathFiles)
  {
    if files == [] || caps == NO_CAPS {
      AllPathsWoven(files);
      return Partition(content, files, []);
    }
    var pathFiles: seq<string> := [];
    var media: seq<Attachment> := [];
    for i := 0 to |files|
      invariant pathFiles == PathsOf(files[..i], classify)
      invariant media == MediaOf(files[..i], classify)
    {
      assert files[..i + 1] == files[..i] + [files[i]];
      PathsSnoc(files[..i], files[i], classify);
      MediaSnoc(files[..i], files[i], classify);
      match classify(files[i]) {
        case Some(format) => media := media + [Attachment(files[i], format)];
        case None => pathFiles := pathFiles + [files[i]];
      }
    }
    assert files[..|files|] == files;
    SplitIsWoven(files, classify);
    SplitIsClassified(files, classify);
    var rewritten := content;
    if media != [] {
      rewritten := AppendMarker(StripMarker(content, files), pathFiles);
    } else {
      SplitWithoutMedia(files, classify);
    }
    forall text | content == AppendMarker(text, files) && forall f | f in files :: Carriable(f)
      ensures rewritten == AppendMarker(text, pathFiles)
    {
      StripUndoesAppend(text, files);
    }
    p := Partition(rewritten, pathFiles, media);
  }

  lemma {:induction false} AllPathsWoven(files: seq<string>)
    ensures Woven(files, files, [])
  {
    if files != [] {
      AllPathsWoven(files[1..]);
    }
  }

  // ---- prompt blocks ----

  datatype Block =
    | TextBlock(text: string)
    | Link(uri: string, mime: Option<string>)
    | Native(kind: Kind, data: seq<bv8>, mediaType: string)

  /** Reading an attachment's bytes, which may fail file by file. */
  type Reader = Attachment -> Option<seq<bv8>>

  function MediaBlocks(media: seq<Attachment>, read: Reader, link: bool): seq<Block> {
    if media == [] then []
    else
      var a := media[0];
      var mine := match read(a)
        case Some(bytes) =>
          [Native(a.format.kind, bytes, a.format.mime)] + if link then [Link(a.path, Some(a.format.mime))] else []
        case None => [Link(a.path, Some(a.format.mime))];
      mine + MediaBlocks(media[1..], read, link)
  }

  function PathBlocks(paths: seq<string>): seq<Block> {
    if paths == [] then [] else [Link(paths[0], None)] + PathBlocks(paths[1..])
  }

  function Blocks(p: Partition, read: Reader, link: bool): seq<Block> {
    (if p.content != "" then [TextBlock(p.content)] else []) + PathBlocks(p.pathFiles) + MediaBlocks(p.media, read, link)
  }

  method BuildPromptBlocks(content: string, files: seq<string>, caps: Caps, link: bool, classify: Classifier,
                           read: Reader)
    returns (blocks: seq<Block>, p: Partition)
    ensures blocks == Blocks(p, read, link)
    ensures Partitions(content, files, caps, classify, p)
    ensures Woven(files, p.pathFiles, p.media)
  {
    hide MediaBlocks, PathBlocks, Partitions;
    p := PartitionMedia(content, files, caps, classify);
    blocks := [];
    if p.content != "" {
      blocks := blocks + [TextBlock(p.content)];
    }
    var links := LinkPaths(p.pathFiles);
    var attached := AttachMedia(p.media, read, link);
    blocks := blocks + links + attached;
  }

  /** File paths ride as resource links. */
  method LinkPaths(paths: seq<string>) returns (blocks: seq<Block>)
    ensures blocks == PathBlocks(paths)
  {
    blocks := [];
    for i := 0 to |paths|
      invariant blocks == PathBlocks(paths[..i])
    {
      assert paths[..i + 1] == paths[..i] + [paths[i]];
      PathBlocksConcat(paths[..i], [paths[i]]);
      blocks := blocks + [Link(paths[i], None)];
    }
    assert paths[..|paths|] == paths;
  }

  /** Media rides as bytes, paired with its path where links are taken, or as its path alone. */
  method AttachMedia(media: seq<Attachment>, read: Reader, link: bool) returns (blocks: seq<Block>)
    ensures blocks == MediaBlocks(media, read, link)
  {
    blocks := [];
    for i := 0 to |media|
      invariant blocks == MediaBlocks(media[..i], read, link)
    {
      var a := media[i];
      ghost var before := blocks;
      match read(a) {
        case Some(bytes) =>
          blocks := blocks + [Native(a.format.kind, bytes, a.format.mime)];
          if link {
            blocks := blocks + [Link(a.path, Some(a.format.mime))];
          }
        case None =>
          blocks := blocks + [Link(a.path, Some(a.format.mime))];
      }
      assert media[..i + 1] == media[..i] + [a];
      MediaBlocksConcat(media[..i], [a], read, link);
      assert blocks == before + MediaBlocks([a], read, link);
    }
    assert media[..|media|] == media;
  }

  lemma {:induction false} PathBlocksConcat(a: seq<string>, b: seq<string>)
    ensures PathBlocks(a + b) == PathBlocks(a) + PathBlocks(b)
  {
    if a == [] {
      assert a + b == b;
    } else {
      assert (a + b)[1..] == a[1..] + b;
      PathBlocksConcat(a[1..], b);
    }
  }

  lemma {:induction false} MediaBlocksConcat(a: seq<Attachment>, b: seq<Attachment>, read: Reader, link: bool)
    ensures MediaBlocks(a + b, read, link) == MediaBlocks(a, read, link) + MediaBlocks(b, read, link)
  {
    if a == [] {
      assert a + b == b;
    } else {
      assert (a + b)[1..] == a[1..] + b;
      MediaBlocksConcat(a[1..], b, read, link);
    }
  }

  // ---- conservation ----

  function Links(blocks: seq<Block>): seq<string> {
    if blocks == [] then [] else (if blocks[0].Link? then [blocks[0].uri] else []) + Links(blocks[1..])
  }

  function Natives(blocks: seq<Block>): seq<Block> {
    if blocks == [] then [] else (if blocks[0].Native? then [blocks[0]] else []) + Natives(blocks[1..])
  }

  function PathList(media: seq<Attachment>): seq<string> {
    if media == [] then [] else [media[0].path] + PathList(media[1..])
  }

  /** The attachments whose bytes cannot be read, in order. */
  function Unread(media: seq<Attachment>, read: Reader): seq<Attachment> {
    if media == [] then [] else (if read(media[0]).None? then [media[0]] else []) + Unread(media[1..], read)
  }

  /** The attachments whose bytes can be read, in order. */
  function Readable(media: seq<Attachment>, read: Reader): seq<Attachment> {
    if media == [] then [] else (if read(media[0]).Some? then [media[0]] else []) + Readable(media[1..], read)
  }

  /** Each attachment's own bytes under its own kind and type. */
  function Payloads(media: seq<Attachment>, read: Reader): seq<Block> {
    seq(|media|, i requires 0 <= i < |media| =>
      Native(media[i].format.kind, read(media[i]).GetOr([]), media[i].format.mime))
  }

  lemma {:induction false} LinksConcat(a: seq<Block>, b: seq<Block>)
    ensures Links(a + b) == Links(a) + Links(b)
  {
    if a == [] {
      assert a + b == b;
    } else {
      assert (a + b)[1..] == a[1..] + b;
      LinksConcat(a[1..], b);
    }
  }

  lemma {:induction false} NativesConcat(a: seq<Block>, b: seq<Block>)
    ensures Natives(a + b) == Natives(a) + Natives(b)
  {
    if a == [] {
      assert a + b == b;
    } else {
      assert (a + b)[1..] == a[1..] + b && (a + b)[0] == a[0];
      NativesConcat(a[1..], b);
      var first := if a[0].Native? then [a[0]] else [];
      assert Natives(a + b) == first + Natives(a[1..] + b);
      assert Natives(a) == first + Natives(a[1..]);
    }
  }

  lemma {:induction false} LinksOfPaths(paths: seq<string>)
    ensures Links(PathBlocks(paths)) == paths && Natives(PathBlocks(paths)) == []
  {
    if paths != [] {
      assert ([Link(paths[0], None)] + PathBlocks(paths[1..]))[1..] == PathBlocks(paths[1..]);
      LinksOfPaths(paths[1..]);
    }
  }

  lemma {:induction false} LinksOfMedia(media: seq<Attachment>, read: Reader, link: bool)
    ensures Links(MediaBlocks(media, read, link)) == PathList(if link then media else Unread(media, read))
    ensures Natives(MediaBlocks(media, read, link)) == Payloads(Readable(media, read), read)
  {
    if media != [] {
      var a, more := media[0], media[1..];
      LinksOfMedia(more, read, link);
      FirstMedia(media, read, link);
      OneMedia(a, read, link);
      SortedFirst(media, read);
      hide Links, MediaBlocks, Natives, Payloads, PathList, Unread, Readable;
      LinksConcat(MediaBlocks([a], read, link), MediaBlocks(more, read, link));
      NativesConcat(MediaBlocks([a], read, link), MediaBlocks(more, read, link));
      PathListFirst(a, more);
      PathListFirst(a, Unread(more, read));
      PayloadsFirst(a, Readable(more, read), read);
      assert media == [a] + more;
    }
  }

  lemma FirstMedia(media: seq<Attachment>, read: Reader, link: bool)
    requires media != []
    ensures MediaBlocks(media, read, link) == MediaBlocks([media[0]], read, link) + MediaBlocks(media[1..], read, link)
  {
    hide MediaBlocks;
    MediaBlocksConcat([media[0]], media[1..], read, link);
    assert media == [media[0]] + media[1..];
  }

  lemma SortedFirst(media: seq<Attachment>, read: Reader)
    requires media != []
    ensures var a, unread, readable := media[0], Unread(media[1..], read), Readable(media[1..], read);
      if read(a).None? then Unread(media, read) == [a] + unread && Readable(media, read) == readable
      else Unread(media, read) == unread && Readable(media, read) == [a] + readable
  {
    assert [] + Unread(media[1..], read) == Unread(media[1..], read);
    assert [] + Readable(media[1..], read) == Readable(media[1..], read);
  }

  lemma PathListFirst(a: Attachment, more: seq<Attachment>)
    ensures PathList([a] + more) == [a.path] + PathList(more)
  {
    assert ([a] + more)[1..] == more;
  }

  lemma PayloadsFirst(a: Attachment, more: seq<Attachment>, read: Reader)
    ensures Payloads([a] + more, read) == Payloads([a], read) + Payloads(more, read)
    ensures Payloads([], read) == []
  {
  }

  lemma OneMedia(a: Attachment, read: Reader, link: bool)
    ensures Links(MediaBlocks([a], read, link)) == if link || read(a).None? then [a.path] else []
    ensures Natives(MediaBlocks([a], read, link)) == if read(a).Some? then Payloads([a], read) else []
  {
    var l := Link(a.path, Some(a.format.mime));
    assert [a][1..] == [] && Links([l]) == [a.path] && Natives([l]) == [];
    match read(a)
    case Some(bytes) =>
      var n := Native(a.format.kind, bytes, a.format.mime);
      assert [n, l][1..] == [l] && Links([n]) == [] && Natives([n]) == [n];
    case None =>
  }

  lemma {:induction false} WovenCounts(files: seq<string>, paths: seq<string>, media: seq<Attachment>)
    requires Woven(files, paths, media)
    ensures |files| == |paths| + |media|
    ensures multiset(files) == multiset(paths) + multiset(PathList(media))
  {
    if files != [] {
      assert files == [files[0]] + files[1..];
      if paths != [] && paths[0] == files[0] && Woven(files[1..], paths[1..], media) {
        WovenCounts(files[1..], paths[1..], media);
        assert paths == [paths[0]] + paths[1..];
      } else {
        WovenCounts(files[1..], paths, media[1..]);
      }
    }
  }

  lemma LinksOfBlocks(p: Partition, read: Reader, link: bool)
    ensures Links(Blocks(p, read, link)) == p.pathFiles + PathList(if link then p.media else Unread(p.media, read))
    ensures Natives(Blocks(p, read, link)) == Payloads(Readable(p.media, read), read)
  {
    hide Links, Natives, PathBlocks, MediaBlocks, Unread, PathList, Readable, Payloads;
    var head := if p.content != "" then [TextBlock(p.content)] else [];
    LinksOfText(p.content);
    LinksOfThree(head, PathBlocks(p.pathFiles), MediaBlocks(p.media, read, link));
    LinksOfPaths(p.pathFiles);
    LinksOfMedia(p.media, read, link);
  }

  lemma LinksOfText(content: string)
    ensures var head := if content != "" then [TextBlock(content)] else []; Links(head) == [] && Natives(head) == []
  {
  }

  lemma LinksOfThree(a: seq<Block>, b: seq<Block>, c: seq<Block>)
    ensures Links(a + b + c) == Links(a) + Links(b) + Links(c)
    ensures Natives(a + b + c) == Natives(a) + Natives(b) + Natives(c)
  {
    hide Links, Natives;
    LinksConcat(a + b, c);
    LinksConcat(a, b);
    NativesConcat(a + b, c);
    NativesConcat(a, b);
  }

  lemma {:induction false} ReadOrUnread(media: seq<Attachment>, read: Reader)
    ensures multiset(PathList(media)) == multiset(PathList(Unread(media, read))) + multiset(PathList(Readable(media, read)))
    ensures |media| == |Unread(media, read)| + |Readable(media, read)|
  {
    if media != [] {
      var a, more := media[0], media[1..];
      ReadOrUnread(more, read);
      SortedFirst(media, read);
      hide PathList, Unread, Readable;
      PathListFirst(a, more);
      PathListFirst(a, Unread(more, read));
      PathListFirst(a, Readable(more, read));
      assert media == [a] + more;
    } else {
      assert PathList(media) == [];
    }
  }

  /**
   No attachment is lost or doubled, however the reads fail. When the agent takes links every
   file is linked exactly once; otherwise every file is linked or sent natively, exactly once.
   Path files come first, both groups keep their order, and bytes go out under their own type.
   */
  lemma AttachmentsConserved(files: seq<string>, p: Partition, read: Reader, link: bool)
    requires Woven(files, p.pathFiles, p.media)
    ensures var blocks := Blocks(p, read, link); var readable := Readable(p.media, read);
      && Links(blocks) == p.pathFiles + PathList(if link then p.media else Unread(p.media, read))
      && Natives(blocks) == Payloads(readable, read)
      && (link ==> multiset(Links(blocks)) == multiset(files))
      && (!link ==>
            && multiset(Links(blocks)) + multiset(PathList(readable)) == multiset(files)
            && |Links(blocks)| + |Natives(blocks)| == |files|)
      && forall b | b in blocks && b.Link? ::
           (b.uri in p.pathFiles && b.mime == None) || exists a | a in p.media :: b == Link(a.path, Some(a.format.mime))
  {
    LinksAreTyped(p, read, link);
    hide Links, Natives, Blocks, Unread, Readable, PathList, Woven;
    LinksOfBlocks(p, read, link);
    WovenCounts(files, p.pathFiles, p.media);
    ReadOrUnread(p.media, read);
    PathListLength(Unread(p.media, read));
  }

  /** A path's link carries no type, an attachment's its own. */
  lemma LinksAreTyped(p: Partition, read: Reader, link: bool)
    ensures forall b | b in Blocks(p, read, link) && b.Link? ::
              (b.uri in p.pathFiles && b.mime == None) || exists a | a in p.media :: b == Link(a.path, Some(a.format.mime))
  {
    PathLinksUntyped(p.pathFiles);
    MediaLinksTyped(p.media, read, link);
    hide PathBlocks, MediaBlocks;
  }

  lemma {:induction false} PathLinksUntyped(paths: seq<string>)
    ensures forall b | b in PathBlocks(paths) :: b.Link? && b.uri in paths && b.mime == None
  {
    if paths != [] {
      PathLinksUntyped(paths[1..]);
    }
  }

  lemma {:induction false} MediaLinksTyped(media: seq<Attachment>, read: Reader, link: bool)
    ensures forall b | b in MediaBlocks(media, read, link) && b.Link? ::
              exists a | a in media :: b == Link(a.path, Some(a.format.mime))
  {
    if media != [] {
      MediaLinksTyped(media[1..], read, link);
      assert media[0] in media && forall a | a in media[1..] :: a in media;
    }
  }

  lemma {:induction false} PathListLength(media: seq<Attachment>)
    ensures |PathList(media)| == |media|
  {
    if media != [] {
      PathListLength(media[1..]);
    }
  }
}
