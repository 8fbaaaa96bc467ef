/** The file drop zone both contribution uploaders share: a chosen or dropped file is kept only when
    it is at most 10 MB and of an accepted type, and the zone is highlighted while a file is dragged
    over it. Only the first file of a selection counts. */
module Uploads {
  import opened Wrappers

  /** 10 MB; a file of exactly this size is still accepted. */
  const MaxFileSize: nat := 10 * 1024 * 1024

  /** What the model needs of a browser `File`. */
  datatype FileInfo = FileInfo(name: string, size: nat, mimeType: string)

  /** The verdict on a file, in the order the handlers check: size first, then type. */
  datatype FileCheck = Accepted | TooLarge | InvalidType

  const DocumentTypes: seq<string> := [
    "application/pdf",
    "text/plain",
    "application/msword",
    "application/vnd.openxmlformats-officedocument.wordprocessingml.document"]

  const CalendarTypes: seq<string> := [
    "application/json",
    "text/csv",
    "application/vnd.ms-excel",
    "application/vnd.openxmlformats-officedocument.spreadsheetml.sheet",
    "text/plain"]

  function CheckFile(f: FileInfo, allowed: seq<string>): (c: FileCheck)
    ensures c == Accepted <==> f.size <= MaxFileSize && f.mimeType in allowed
    ensures c == TooLarge <==> f.size > MaxFileSize
    ensures c == InvalidType <==> f.size <= MaxFileSize && f.mimeType !in allowed
  {
    if f.size > MaxFileSize then TooLarge
    else if f.mimeType !in allowed then InvalidType
    else Accepted
  }

  /** The toast a rejected file raises. */
  function RejectionTitle(c: FileCheck): (title: Option<string>)
    ensures title.None? <==> c == Accepted
  {
    match c
    case Accepted => None
    case TooLarge => Some("File too large")
    case InvalidType => Some("Invalid file type")
  }

  class DropZone {
    const allowed: seq<string>
    var file: Option<FileInfo>
    var isDragging: bool

    /** The kept file, if any, passed the checks. */
    predicate Valid()
      reads this
    {
      file.Some? ==> CheckFile(file.value, allowed) == Accepted
    }

    constructor(allowed: seq<string>)
      ensures this.allowed == allowed && file.None? && !isDragging && Valid()
    {
      this.allowed := allowed;
      file := None;
      isDragging := false;
    }

    /** `handleFileChange`: the checks on the first of `files`. An empty selection does nothing and
        raises no toast; an accepted file replaces the kept one; a rejected file leaves the kept one in
        place. */
    method ChooseFiles(files: seq<FileInfo>) returns (check: Option<FileCheck>)
      requires Valid()
      modifies this`file
      ensures Valid()
      ensures files == [] ==> check.None? && file == old(file)
      ensures files != [] ==> check == Some(CheckFile(files[0], allowed))
      ensures files != [] && check == Some(Accepted) ==> file == Some(files[0])
      ensures files != [] && check != Some(Accepted) ==> file == old(file)
    {
      if files == [] {
        return None;
      }
      var c := CheckFile(files[0], allowed);
      if c == Accepted {
        file := Some(files[0]);
      }
      check := Some(c);
    }

    /** `handleDrop`: the highlight goes off, then the dropped files are checked as a selection is. */
    method Drop(files: seq<FileInfo>) returns (check: Option<FileCheck>)
      requires Valid()
      modifies this`file, this`isDragging
      ensures Valid() && !isDragging
      ensures files == [] ==> check.None? && file == old(file)
      ensures files != [] ==> check == Some(CheckFile(files[0], allowed))
      ensures files != [] && check == Some(Accepted) ==> file == Some(files[0])
      ensures files != [] && check != Some(Accepted) ==> file == old(file)
    {
      isDragging := false;
      check := ChooseFiles(files);
    }

    method DragOver()
      modifies this`isDragging
      ensures isDragging
    {
      isDragging := true;
    }

    method DragLeave()
      modifies this`isDragging
      ensures !isDragging
    {
      isDragging := false;
    }

    /** The "Remove File" button, and the clearing after a successful submission. */
    method RemoveFile()
      modifies this`file
      ensures file.None? && Valid()
    {
      file := None;
    }
  }
}
