/**
 * The upload intake: the dropzone's `preview` and `error` state, `onDrop` and
 * `removeFile`. The picker's own filter (image types, at most one file) runs
 * before `onDrop` and is not part of this model; `onDrop` receives whatever
 * list of files that filter accepted. Each call of the `onFileSelect`
 * callback is recorded, in order, in `selected`.
 */
module Dropzone {

  import opened Wrappers
  import opened Browser

  /** The largest accepted file: 10 MiB. */
  const MAX_FILE_SIZE: nat := 10 * 1024 * 1024

  const TOO_LARGE_MESSAGE := "File size too large. Max 10MB allowed."

  /** What `onDrop` does with a list of accepted files. */
  datatype Decision =
    | NoFile              // the list is empty: return early
    | TooLarge            // the first file exceeds the limit: show the error
    | Accept(file: File)  // preview the first file and hand it on

  /** Only the first file is looked at; it is rejected only when strictly larger than 10 MiB. */
  function Decide(acceptedFiles: seq<File>): (d: Decision)
    ensures d.NoFile? <==> acceptedFiles == []
    ensures d.TooLarge? <==> acceptedFiles != [] && acceptedFiles[0].size > MAX_FILE_SIZE
    ensures d.Accept? <==> acceptedFiles != [] && acceptedFiles[0].size <= MAX_FILE_SIZE
    ensures d.Accept? ==> d.file == acceptedFiles[0]
  {
    if acceptedFiles == [] then NoFile
    else if acceptedFiles[0].size > MAX_FILE_SIZE then TooLarge
    else Accept(acceptedFiles[0])
  }

  /** A file of exactly 10485760 bytes is accepted; one byte more is rejected. */
  lemma LimitIsInclusive(name: string, rest: seq<File>)
    ensures MAX_FILE_SIZE == 10485760
    ensures Decide([File(name, 10485760)] + rest) == Accept(File(name, 10485760))
    ensures Decide([File(name, 10485761)] + rest) == TooLarge
  {
  }

  /** The dropzone's state as a value: its preview, its error and the files handed on so far. */
  datatype Zone = Zone(preview: Option<ObjectUrl>, error: Option<string>, selected: seq<File>)

  /** `onDrop` on a zone, with `objectUrl` the URL the browser would create for the first file. */
  function Drop(z: Zone, acceptedFiles: seq<File>, objectUrl: ObjectUrl): (r: Zone)
    ensures r.error == (if Decide(acceptedFiles).TooLarge? then Some(TOO_LARGE_MESSAGE) else None)
    ensures r.preview == (if Decide(acceptedFiles).Accept? then Some(objectUrl) else z.preview)
    ensures r.selected == z.selected + (if Decide(acceptedFiles).Accept? then [acceptedFiles[0]] else [])
  {
    match Decide(acceptedFiles)
    case NoFile => z.(error := None)
    case TooLarge => z.(error := Some(TOO_LARGE_MESSAGE))
    case Accept(f) => z.(error := None, preview := Some(objectUrl), selected := z.selected + [f])
  }

  /** One drop: the list of files the picker accepted and the URL created for the first of them. */
  datatype DropEvent = DropEvent(acceptedFiles: seq<File>, objectUrl: ObjectUrl)

  function DropAll(z: Zone, drops: seq<DropEvent>): Zone
    decreases drops
  {
    if drops == [] then z
    else DropAll(Drop(z, drops[0].acceptedFiles, drops[0].objectUrl), drops[1..])
  }

  /** The first file of every drop that passes the size check, in order. */
  function AcceptedFirsts(drops: seq<DropEvent>): (fs: seq<File>)
    ensures |fs| <= |drops|
    ensures forall i :: 0 <= i < |fs| ==> fs[i].size <= MAX_FILE_SIZE
    decreases drops
  {
    if drops == [] then []
    else match Decide(drops[0].acceptedFiles)
      case Accept(f) => [f] + AcceptedFirsts(drops[1..])
      case _ => AcceptedFirsts(drops[1..])
  }

  /**
   * Over any series of drops, `onFileSelect` is called exactly once per drop
   * whose first file passes the size check, with that file, in order, and
   * never for any other drop.
   */
  lemma {:induction false} CallbackOncePerAcceptedDrop(z: Zone, drops: seq<DropEvent>)
    ensures DropAll(z, drops).selected == z.selected + AcceptedFirsts(drops)
    decreases drops
  {
    if drops != [] {
      var z1 := Drop(z, drops[0].acceptedFiles, drops[0].objectUrl);
      CallbackOncePerAcceptedDrop(z1, drops[1..]);
    }
  }

  /** Drops that are all rejected or empty leave the preview and the callback log as they were. */
  lemma {:induction false} RejectedDropsKeepPreview(z: Zone, drops: seq<DropEvent>)
    requires forall i :: 0 <= i < |drops| ==> !Decide(drops[i].acceptedFiles).Accept?
    ensures DropAll(z, drops).preview == z.preview
    ensures DropAll(z, drops).selected == z.selected
    decreases drops
  {
    if drops != [] {
      RejectedDropsKeepPreview(Drop(z, drops[0].acceptedFiles, drops[0].objectUrl), drops[1..]);
    }
  }

  class Dropzone {
    var preview: Option<ObjectUrl>
    var error: Option<string>
    var selected: seq<File>

    function State(): Zone
      reads this
    {
      Zone(preview, error, selected)
    }

    constructor ()
      ensures preview == None && error == None && selected == []
    {
      preview, error, selected := None, None, [];
    }

    /** `onDrop`: clear the error, then take the first file, reject it if too large, else preview it and hand it on. */
    method OnDrop(acceptedFiles: seq<File>, objectUrl: ObjectUrl)
      modifies this
      ensures error == (if Decide(acceptedFiles).TooLarge? then Some(TOO_LARGE_MESSAGE) else None)
      ensures preview == (if Decide(acceptedFiles).Accept? then Some(objectUrl) else old(preview))
      ensures selected == old(selected) + (if Decide(acceptedFiles).Accept? then [acceptedFiles[0]] else [])
      ensures State() == Drop(old(State()), acceptedFiles, objectUrl)
    {
      error := None;
      if |acceptedFiles| == 0 {
        return;
      }
      var file := acceptedFiles[0];
      if file.size > MAX_FILE_SIZE {
        error := Some(TOO_LARGE_MESSAGE);
        return;
      }
      preview := Some(objectUrl);
      selected := selected + [file];
    }

    /** `removeFile`: drop the preview and the error; nothing is handed on. */
    method RemoveFile()
      modifies this
      ensures preview == None && error == None && selected == old(selected)
    {
      preview := None;
      error := None;
    }
  }
}
