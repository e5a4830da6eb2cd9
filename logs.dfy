/** lib/logs.js: the log directory. Each check's active log is the file
    `<id>.log`; a rotated log is `<id>-<time>.gz.b64`. The directory is a map
    from file name to contents; gzip followed by base64 is one opaque
    function `encode`. */
module Logs {
  import opened Text
  import opened Js

  const LogSuffix := ".log"
  const ArchiveSuffix := ".gz.b64"

  type Files = map<string, string>

  /** The contents of a file, "" when it does not exist. */
  function Contents(files: Files, name: string): string {
    if name in files then files[name] else ""
  }

  /** No name is both an active log and a compressed one. */
  lemma SuffixesDisjoint(name: string)
    ensures !(EndsWith(name, LogSuffix) && EndsWith(name, ArchiveSuffix))
  {
    if EndsWith(name, LogSuffix) {
      assert name[|name| - 1] == LogSuffix[3] == 'g';
      assert ArchiveSuffix[6] == '4';
    }
  }

  // ----- append -----

  /** The directory after a successful append: `<logFileName>.log` created
      when absent and extended by the string and a newline. */
  function Appended(files: Files, logFileName: string, logString: string): (r: Files)
    ensures r.Keys == files.Keys + {logFileName + LogSuffix}
  {
    var name := logFileName + LogSuffix;
    files[name := Contents(files, name) + logString + "\n"]
  }

  /** Appending keeps every earlier byte: the old contents are a prefix of the
      new ones, the appended line closes the file, and no other file changes. */
  lemma AppendKeepsHistory(files: Files, logFileName: string, logString: string)
    ensures var name := logFileName + LogSuffix;
            var after := Contents(Appended(files, logFileName, logString), name);
            && after[..|Contents(files, name)|] == Contents(files, name)
            && after[|Contents(files, name)|..] == logString + "\n"
    ensures forall f :: f != logFileName + LogSuffix ==>
              Contents(Appended(files, logFileName, logString), f) == Contents(files, f)
  {
  }

  // ----- list -----

  datatype ListReply = ListNames(names: seq<string>) | ListError

  /** The names one directory entry contributes to the listing. */
  function EntryNames(entry: string, includeCompressedLogs: bool, isFileType: (string, string) -> bool): seq<string> {
    (if isFileType(entry, LogSuffix) then [ReplaceFirst(entry, LogSuffix, "")] else [])
    + (if isFileType(entry, ArchiveSuffix) && includeCompressedLogs then [ReplaceFirst(entry, ArchiveSuffix, "")] else [])
  }

  /** The names gathered from the entries in order. */
  function Gathered(entries: seq<string>, includeCompressedLogs: bool, isFileType: (string, string) -> bool): seq<string> {
    if entries == [] then []
    else Gathered(entries[..|entries| - 1], includeCompressedLogs, isFileType)
         + EntryNames(entries[|entries| - 1], includeCompressedLogs, isFileType)
  }

  /** The active-log names of the entries, suffix removed. */
  function LogNames(entries: seq<string>, isFileType: (string, string) -> bool): seq<string> {
    if entries == [] then []
    else LogNames(entries[..|entries| - 1], isFileType)
         + (if isFileType(entries[|entries| - 1], LogSuffix)
            then [ReplaceFirst(entries[|entries| - 1], LogSuffix, "")] else [])
  }

  /** The compressed-log names of the entries, suffix removed. */
  function ArchiveNames(entries: seq<string>, isFileType: (string, string) -> bool): seq<string> {
    if entries == [] then []
    else ArchiveNames(entries[..|entries| - 1], isFileType)
         + (if isFileType(entries[|entries| - 1], ArchiveSuffix)
            then [ReplaceFirst(entries[|entries| - 1], ArchiveSuffix, "")] else [])
  }

  /** Without `includeCompressedLogs` the listing is exactly the active logs. */
  lemma {:induction false} ListingWithoutArchives(entries: seq<string>, isFileType: (string, string) -> bool)
    ensures Gathered(entries, false, isFileType) == LogNames(entries, isFileType)
  {
    if entries != [] {
      ListingWithoutArchives(entries[..|entries| - 1], isFileType);
    }
  }

  /** With `includeCompressedLogs` the listing holds the active logs and the
      compressed ones, nothing else, each as often as its entries give it. */
  lemma {:induction false} ListingWithArchives(entries: seq<string>, isFileType: (string, string) -> bool)
    ensures multiset(Gathered(entries, true, isFileType))
         == multiset(LogNames(entries, isFileType)) + multiset(ArchiveNames(entries, isFileType))
  {
    if entries != [] {
      ListingWithArchives(entries[..|entries| - 1], isFileType);
    }
  }

  /** An active log `<base>.log` whose name holds no earlier `.log` is listed
      as `<base>`: the first `.log` that `replace` removes is the suffix. */
  lemma ListedLogName(base: string, includeCompressedLogs: bool, isFileType: (string, string) -> bool)
    requires isFileType(base + LogSuffix, LogSuffix) && !isFileType(base + LogSuffix, ArchiveSuffix)
    requires forall i: nat :: i < |base| ==> !OccursAt(base + LogSuffix, LogSuffix, i)
    ensures EntryNames(base + LogSuffix, includeCompressedLogs, isFileType) == [base]
  {
    ReplaceFirstStripsSuffix(base, LogSuffix);
  }

  /** A compressed log `<base>.gz.b64` whose name holds no earlier `.gz.b64`
      is listed as `<base>` when compressed logs are included. */
  lemma ListedArchiveName(base: string, isFileType: (string, string) -> bool)
    requires isFileType(base + ArchiveSuffix, ArchiveSuffix) && !isFileType(base + ArchiveSuffix, LogSuffix)
    requires forall i: nat :: i < |base| ==> !OccursAt(base + ArchiveSuffix, ArchiveSuffix, i)
    ensures EntryNames(base + ArchiveSuffix, true, isFileType) == [base]
  {
    ReplaceFirstStripsSuffix(base, ArchiveSuffix);
  }

  /** `readdir` gave each file of the directory exactly once. */
  predicate IsListing(entries: seq<string>, files: Files) {
    && (forall e :: e in entries ==> e in files)
    && (forall e :: e in files ==> e in entries)
    && (forall i, j :: 0 <= i < j < |entries| ==> entries[i] != entries[j])
  }

  /** The callbacks list makes for a directory with these entries: one per
      entry, each with the names gathered up to and including it. */
  function Replies(entries: seq<string>, includeCompressedLogs: bool, isFileType: (string, string) -> bool)
    : (r: seq<ListReply>)
    ensures |r| == |entries|
  {
    if entries == [] then []
    else Replies(entries[..|entries| - 1], includeCompressedLogs, isFileType)
         + [ListNames(Gathered(entries, includeCompressedLogs, isFileType))]
  }

  /** The k-th callback carries the names of the first k + 1 entries. */
  lemma {:induction false} RepliesAt(entries: seq<string>, includeCompressedLogs: bool,
                                     isFileType: (string, string) -> bool, k: nat)
    requires k < |entries|
    ensures Replies(entries, includeCompressedLogs, isFileType)[k]
            == ListNames(Gathered(entries[..k + 1], includeCompressedLogs, isFileType))
  {
    var prefix := entries[..|entries| - 1];
    if k < |entries| - 1 {
      RepliesAt(prefix, includeCompressedLogs, isFileType, k);
      assert prefix[..k + 1] == entries[..k + 1];
    } else {
      assert entries[..k + 1] == entries;
    }
  }

  // ----- compress -----

  datatype CompressFault = NoFault | GzipFails | WriteFails | CloseFails

  /** What compress reports through its callback; NoCallback when it never
      calls back (the source is missing or empty). */
  datatype CompressReply = NoCallback | Compressed | CompressFailed

  function CompressReplyOf(files: Files, logId: string, newFileId: string, fault: CompressFault): CompressReply {
    if Contents(files, logId + LogSuffix) == "" then NoCallback
    else if fault == GzipFails || newFileId + ArchiveSuffix in files then CompressFailed
    else if fault == NoFault then Compressed
    else CompressFailed
  }

  /** The directory after compress. The destination is opened with `wx`, so
      an existing one is never touched; a failed write leaves it created and
      empty, a failed close leaves it written. */
  function CompressedFiles(files: Files, encode: string -> string, logId: string, newFileId: string,
                           fault: CompressFault): Files
  {
    var src := logId + LogSuffix;
    var dest := newFileId + ArchiveSuffix;
    if Contents(files, src) == "" || fault == GzipFails || dest in files then files
    else if fault == WriteFails then files[dest := ""]
    else files[dest := encode(files[src])]
  }

  /** compress only ever adds the destination: every existing file keeps its
      contents, the source included. On success the destination holds the
      encoded source. */
  lemma CompressAddsOnly(files: Files, encode: string -> string, logId: string, newFileId: string,
                         fault: CompressFault)
    ensures var r := CompressedFiles(files, encode, logId, newFileId, fault);
            && files.Keys <= r.Keys
            && (forall f :: f in files ==> r[f] == files[f])
            && (forall f :: f in r && f !in files ==> f == newFileId + ArchiveSuffix)
    ensures CompressReplyOf(files, logId, newFileId, fault) == Compressed ==>
              var r := CompressedFiles(files, encode, logId, newFileId, fault);
              newFileId + ArchiveSuffix !in files
              && r[newFileId + ArchiveSuffix] == encode(files[logId + LogSuffix])
  {
  }

  /** compress refuses to overwrite: with the destination present it reports
      an error and the directory is as it was. */
  lemma CompressNeverOverwrites(files: Files, encode: string -> string, logId: string, newFileId: string,
                                fault: CompressFault)
    requires newFileId + ArchiveSuffix in files
    requires Contents(files, logId + LogSuffix) != ""
    ensures CompressReplyOf(files, logId, newFileId, fault) == CompressFailed
    ensures CompressedFiles(files, encode, logId, newFileId, fault) == files
  {
  }

  // ----- truncate -----

  predicate TruncateFails(files: Files, fileId: string, fails: bool) {
    fails || fileId + LogSuffix !in files
  }

  /** The directory after truncate: `<fileId>.log` emptied. */
  function TruncatedFiles(files: Files, fileId: string, fails: bool): (r: Files)
    ensures r.Keys == files.Keys
    ensures forall f :: f in files && f != fileId + LogSuffix ==> r[f] == files[f]
    ensures !TruncateFails(files, fileId, fails) ==> r[fileId + LogSuffix] == ""
    ensures TruncateFails(files, fileId, fails) ==> r == files
  {
    if TruncateFails(files, fileId, fails) then files else files[fileId + LogSuffix := ""]
  }

  class LogDir {
    var files: Files
    /** base64(gzip(contents)). */
    const encode: string -> string

    constructor (initial: Files, encode: string -> string)
      ensures files == initial && this.encode == encode
    {
      files := initial;
      this.encode := encode;
    }

    /** lib.append: open `<logFileName>.log` for appending and write the
        string and a newline. A failure (`fails`) leaves the file as it was. */
    method Append(logFileName: string, logString: string, fails: bool) returns (failed: bool)
      modifies this
      ensures failed == fails
      ensures files == if fails then old(files) else Appended(old(files), logFileName, logString)
    {
      failed := fails;
      if !fails {
        var name := logFileName + LogSuffix;
        var existing := if name in files then files[name] else "";
        files := files[name := existing + logString + "\n"];
      }
    }

    /** lib.list: read the directory (its entries in `entries`, readdir's
        order) and call back once per entry with the names gathered so far;
        a read error or an empty directory calls back once with an error. */
    method List(includeCompressedLogs: bool, isFileType: (string, string) -> bool,
                entries: seq<string>, readFails: bool) returns (replies: seq<ListReply>)
      requires IsListing(entries, files)
      ensures readFails || entries == [] ==> replies == [ListError]
      ensures !readFails && entries != [] ==> replies == Replies(entries, includeCompressedLogs, isFileType)
    {
      if readFails || |entries| == 0 {
        replies := [ListError];
        return;
      }
      var trimmedFileNames: seq<string> := [];
      replies := [];
      var i := 0;
      while i < |entries|
        invariant 0 <= i <= |entries|
        invariant trimmedFileNames == Gathered(entries[..i], includeCompressedLogs, isFileType)
        invariant replies == Replies(entries[..i], includeCompressedLogs, isFileType)
      {
        var fileName := entries[i];
        if isFileType(fileName, LogSuffix) {
          trimmedFileNames := trimmedFileNames + [ReplaceFirst(fileName, LogSuffix, "")];
        }
        if isFileType(fileName, ArchiveSuffix) && includeCompressedLogs {
          trimmedFileNames := trimmedFileNames + [ReplaceFirst(fileName, ArchiveSuffix, "")];
        }
        ghost var prefix := entries[..i + 1];
        assert prefix[..|prefix| - 1] == entries[..i] && prefix[|prefix| - 1] == fileName;
        replies := replies + [ListNames(trimmedFileNames)];
        i := i + 1;
      }
      assert entries[..i] == entries;
    }

    /** lib.compress: read `<logId>.log`, gzip it and write it base64-encoded
        to the new file `<newFileId>.gz.b64`. */
    method Compress(logId: string, newFileId: string, fault: CompressFault) returns (reply: CompressReply)
      modifies this
      ensures reply == CompressReplyOf(old(files), logId, newFileId, fault)
      ensures files == CompressedFiles(old(files), encode, logId, newFileId, fault)
    {
      var sourceFile := logId + LogSuffix;
      var destFile := newFileId + ArchiveSuffix;
      if sourceFile !in files || files[sourceFile] == "" {
        // readFile failed or read nothing: the callback is never called
        reply := NoCallback;
        return;
      }
      var inputString := files[sourceFile];
      if fault == GzipFails {
        reply := CompressFailed;
        return;
      }
      if destFile in files {
        // opening with `wx` fails on an existing file
        reply := CompressFailed;
        return;
      }
      if fault == WriteFails {
        files := files[destFile := ""];
        reply := CompressFailed;
        return;
      }
      files := files[destFile := encode(inputString)];
      reply := if fault == CloseFails then CompressFailed else Compressed;
    }

    /** lib.truncate: empty `<fileId>.log`. */
    method Truncate(fileId: string, fails: bool) returns (failed: bool)
      modifies this
      ensures failed == TruncateFails(old(files), fileId, fails)
      ensures files == TruncatedFiles(old(files), fileId, fails)
    {
      failed := fails || fileId + LogSuffix !in files;
      if !failed {
        files := files[fileId + LogSuffix := ""];
      }
    }
  }
}
