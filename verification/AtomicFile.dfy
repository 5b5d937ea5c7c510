/**
 Hash-checked file replacement. A file is its content, absent or present; a hash stands for the content it digests.
 */
module AtomicFile {
  import opened Wrappers

  datatype FileError = MissingFile | ConcurrentModification

  /** The new content, provided the file still is what the writer read (`None`: it was missing). */
  function Replace<T(==)>(file: Option<T>, expected: Option<T>, bytes: T): Result<T, FileError> {
    if file == expected then Ok(bytes) else Err(ConcurrentModification)
  }

  function Remove<T(==)>(file: Option<T>, expected: T): Result<(), FileError> {
    if file.None? then Err(MissingFile)
    else if file.value != expected then Err(ConcurrentModification)
    else Ok(())
  }

  // Several writers.

  /** A write as its author means it: over what was read. */
  datatype Attempt<T> = Attempt(read: Option<T>, bytes: T)

  function AfterAll<T(==)>(file: Option<T>, attempts: seq<Attempt<T>>): Option<T>
    decreases |attempts|
  {
    if attempts == [] then file
    else
      match Replace(file, attempts[0].read, attempts[0].bytes)
      case Ok(b) => AfterAll(Some(b), attempts[1..])
      case Err(_) => AfterAll(file, attempts[1..])
  }

  function Accepted<T(==)>(file: Option<T>, attempts: seq<Attempt<T>>): seq<Attempt<T>>
    decreases |attempts|
  {
    if attempts == [] then []
    else
      match Replace(file, attempts[0].read, attempts[0].bytes)
      case Ok(b) => [attempts[0]] + Accepted(Some(b), attempts[1..])
      case Err(_) => Accepted(file, attempts[1..])
  }

  /** Each had read what the one before it wrote, the first what was in the file. */
  predicate Chained<T(==)>(file: Option<T>, accepted: seq<Attempt<T>>)
    decreases |accepted|
  {
    accepted != [] ==> accepted[0].read == file && Chained(Some(accepted[0].bytes), accepted[1..])
  }

  function LastWritten<T>(file: Option<T>, accepted: seq<Attempt<T>>): Option<T> {
    if accepted == [] then file else Some(accepted[|accepted| - 1].bytes)
  }

  /** However writers interleave, no update is lost: every accepted write had read the one accepted before it. */
  lemma {:induction false} NoUpdateIsLost<T>(file: Option<T>, attempts: seq<Attempt<T>>)
    ensures Chained(file, Accepted(file, attempts))
    ensures AfterAll(file, attempts) == LastWritten(file, Accepted(file, attempts))
    decreases |attempts|
  {
    if attempts != [] {
      match Replace(file, attempts[0].read, attempts[0].bytes) {
        case Ok(b) =>
          NoUpdateIsLost(Some(b), attempts[1..]);
          assert ([attempts[0]] + Accepted(Some(b), attempts[1..]))[1..] == Accepted(Some(b), attempts[1..]);
        case Err(_) => NoUpdateIsLost(file, attempts[1..]);
      }
    }
  }

  // One write, with its two checks.

  class ManagedFile<T(==)> {
    var content: Option<T>
    var backups: seq<T>

    constructor (content: Option<T>)
      ensures this.content == content && backups == []
    {
      this.content, backups := content, [];
    }

    /**
     Another program may write twice: `others` is what it leaves in the file between the first check and
     the recheck, `late` what it leaves between the rename and the reading back, if it writes at all.
     The answer is what is read back.
     */
    method WriteWithPolicy(expected: Option<T>, bytes: T, backup: bool, others: Option<Option<T>>,
        late: Option<Option<T>>)
      returns (r: Result<T, FileError>)
      modifies this
      ensures var replaced := old(content) == expected && others.GetOr(old(content)) == expected;
              if replaced then
                && content == late.GetOr(Some(bytes))
                && r == if content.Some? then Ok(content.value) else Err(MissingFile)
              else
                && content == (if old(content) == expected then others.GetOr(old(content)) else old(content))
                && r == Err(ConcurrentModification)
      ensures late.None? && r.Ok? ==> r.value == bytes && content == Some(bytes)
      ensures var kept := if backup && expected.Some? && old(content) == expected then [expected.value] else [];
              backups == old(backups) + kept
    {
      var current := content;
      if current != expected {
        return Err(ConcurrentModification);
      }
      if backup && current.Some? {
        backups := backups + [current.value];
      }
      content := others.GetOr(content);
      match Replace(content, current, bytes) {
        case Ok(written) => content := Some(written);
        case Err(e) => return Err(e);
      }
      content := late.GetOr(content);
      return if content.Some? then Ok(content.value) else Err(MissingFile);
    }

    method RemoveExternal(expected: T) returns (r: Result<(), FileError>)
      modifies this`content
      ensures r.Ok? <==> old(content) == Some(expected)
      ensures content == if r.Ok? then None else old(content)
      ensures r.Err? ==> (r.error.MissingFile? <==> old(content).None?)
    {
      r := Remove(content, expected);
      if r.Ok? {
        content := None;
      }
    }
  }
}
