/**
 * wechat_api/coze_file_uploader.py: `upload_file_to_coze` sends one local
 * file, as base 64, to the dataset API, named by its base name and typed by
 * its extension. The file system is an input: what `file_path` names is
 * given as absent, unreadable, or readable with its bytes.
 */
module CozeFileUploader {
  import opened Wrappers
  import opened Json
  import opened Coze
  import Utf8
  import Base64

  /** What `file_path` names: nothing (`os.path.exists` is false), something `open(..., 'rb')` fails on, or a file. */
  datatype FileEntry = Absent | Unreadable | Readable(bytes: seq<Utf8.Byte>)

  /** The index of the last `c` in `s`, or -1 when there is none. */
  function LastIndex(s: string, c: char): (i: int)
    ensures -1 <= i < |s|
    ensures i >= 0 ==> s[i] == c
    ensures forall j :: i < j < |s| ==> s[j] != c
    ensures i == -1 <==> c !in s
  {
    if s == [] then -1
    else if s[|s| - 1] == c then |s| - 1
    else LastIndex(s[..|s| - 1], c)
  }

  /** `os.path.basename(file_path)`: what follows the last '/'. */
  function BaseName(path: string): string {
    path[LastIndex(path, '/') + 1..]
  }

  /**
   * The base name holds no '/', and the path is a directory part that is
   * empty or ends in '/', followed by the base name.
   */
  lemma BaseNameSplits(path: string)
    ensures '/' !in BaseName(path)
    ensures var dir := path[..|path| - |BaseName(path)|];
      path == dir + BaseName(path) && (dir == [] || dir[|dir| - 1] == '/')
  {
    var i := LastIndex(path, '/');
    var name := BaseName(path);
    forall k | 0 <= k < |name| ensures name[k] != '/' {
      assert name[k] == path[i + 1 + k];
    }
    assert path[..|path| - |name|] == path[..i + 1];
  }

  /** The base name of a path that holds no '/' is the path itself. */
  lemma BaseNameOfName(name: string)
    requires '/' !in name
    ensures BaseName(name) == name
  {
  }

  /** Python's `str.lower()` on one character, for the ASCII letters. */
  function LowerChar(c: char): (r: char)
    ensures 'A' <= c <= 'Z' ==> r as int == c as int + 32
    ensures !('A' <= c <= 'Z') ==> r == c
  {
    if 'A' <= c <= 'Z' then (c as int + 32) as char else c
  }

  function Lower(s: string): (r: string)
    ensures |r| == |s| && forall k :: 0 <= k < |s| ==> r[k] == LowerChar(s[k])
  {
    seq(|s|, k requires 0 <= k < |s| => LowerChar(s[k]))
  }

  /** Lowering twice is lowering once, and a lowered text has no capital ASCII letter. */
  lemma LowerIdempotent(s: string)
    ensures Lower(Lower(s)) == Lower(s)
    ensures forall k :: 0 <= k < |s| ==> !('A' <= Lower(s)[k] <= 'Z')
  {
    assert forall k :: 0 <= k < |s| ==> LowerChar(LowerChar(s[k])) == LowerChar(s[k]);
  }

  /** `file_name.split('.')[-1].lower() if '.' in file_name else 'txt'`. */
  function FileType(name: string): (r: string)
    ensures '.' !in name ==> r == "txt"
  {
    if '.' in name then Lower(name[LastIndex(name, '.') + 1..]) else "txt"
  }

  /**
   * A name with a '.' is typed by the lowered text after its last '.': the
   * name is a stem, a '.', and an extension without '.', and the type is
   * the extension lowered.
   */
  lemma FileTypeOfExtension(stem: string, ext: string)
    requires '.' !in ext
    ensures FileType(stem + "." + ext) == Lower(ext)
  {
    var name := stem + "." + ext;
    assert name[|stem|] == '.';
    var i := LastIndex(name, '.');
    assert i == |stem| by {
      forall j | |stem| < j < |name| ensures name[j] != '.' {
        assert name[j] == ext[j - |stem| - 1];
      }
    }
    assert name[i + 1..] == ext;
  }

  /** The request `upload_file_to_coze` sends for the file at `path` with the given bytes. */
  function FileRequest(apiKey: string, kbId: string, path: string, bytes: seq<Utf8.Byte>): Request {
    DatasetRequest(apiKey, kbId, Some(BaseName(path)), Base64.Encode(bytes), FileType(BaseName(path)))
  }

  /**
   * The request is a dataset request for exactly one document, named by the
   * base name and typed by the extension, whose base 64 decodes back to the
   * file's bytes.
   */
  lemma FileRequestEnvelope(apiKey: string, kbId: string, path: string, bytes: seq<Utf8.Byte>)
    ensures var r := FileRequest(apiKey, kbId, path, bytes);
      r.url == DatasetUrl && r.payload.datasetId == kbId && |r.payload.documentBases| == 1
      && r.payload.documentBases[0].name == Some(BaseName(path))
      && r.payload.documentBases[0].sourceInfo.fileType == FileType(BaseName(path))
      && r.payload.documentBases[0].sourceInfo.documentSource == 0
      && r.payload.chunkStrategy == ChunkStrategy(0, 800) && r.payload.formatType == 0
      && Base64.Decode(r.payload.documentBases[0].sourceInfo.fileBase64) == Some(bytes)
  {
    Base64.DecodeEncode(bytes);
  }

  /**
   * `upload_file_to_coze(kb_id, file_path)`: nothing is sent and `None` comes
   * back when the key or the knowledge base is missing, or the file does not
   * exist or cannot be read; otherwise one request is posted and the
   * response data comes back exactly when its code is zero.
   */
  method UploadFileToCoze(store: DocumentStore, apiKey: string, kbId: string, path: string, file: FileEntry)
    returns (r: Option<JsonValue>)
    modifies store
    ensures !Configured(apiKey, kbId) || !file.Readable? ==> store.sent == old(store.sent) && r == None
    ensures Configured(apiKey, kbId) && file.Readable? ==>
      store.sent == old(store.sent) + [FileRequest(apiKey, kbId, path, file.bytes)]
      && r == DatasetReply(store.ReplyTo(old(|store.sent|)))
  {
    if !Configured(apiKey, kbId) {
      return None;
    }
    if file.Absent? {
      return None;
    }
    if file.Unreadable? {
      return None;
    }
    var content := Base64.Encode(file.bytes);
    var name := BaseName(path);
    var fileType := FileType(name);
    var o := store.Post(DatasetRequest(apiKey, kbId, Some(name), content, fileType));
    r := DatasetReply(o);
  }
}
