/** Loading and saving the state file, one process at a time. */
module StateFiles {
  import opened Wrappers
  import opened Keys
  import opened PersistCodec
  import opened PersistProtocol

  datatype LoadError = Unreadable | NotWhole | Flawed(flaw: Flaw)

  datatype SaveError = Unusable(flaw: Flaw) | CreateFailed | WriteFailed | CreatedConcurrently | PublishFailed | CleanupFailed | SyncFailed

  class StateFile {
    var files: map<FileId, Content>
    var path: Option<FileId>
    var temps: set<FileId>

    ghost predicate Valid()
      reads this
    {
      (path.Some? ==> path.value in files) && temps <= files.Keys && (path.Some? ==> path.value !in temps)
    }

    constructor ()
      ensures Valid() && path == None && temps == {}
    {
      files, path, temps := map[], None, {};
    }

    /** What the path names. */
    function Current(): Option<Content>
      requires Valid()
      reads this
    {
      if path.None? then None else Some(files[path.value])
    }

    /** A missing file is not an error; anything but one complete, acceptable
        record is. `proper` says whether the file could be inspected, opened and
        read, and is one regular file, private and small enough. */
    method Load(proper: bool) returns (r: Result<Option<ReceiveState>, LoadError>)
      requires Valid()
      ensures Current().None? <==> r == Ok(None)
      ensures forall state :: r == Ok(Some(state)) <==>
          Current().Some? && proper && Current().value.Whole? && Encode(state) == Ok(Current().value.record)
      ensures r == Err(Unreadable) <==> Current().Some? && !proper
      ensures r == Err(NotWhole) <==> Current().Some? && proper && Current().value.Partial?
      ensures forall flaw :: r == Err(Flawed(flaw)) <==>
          Current().Some? && proper && Current().value.Whole? && Decode(Current().value.record) == Err(flaw)
    {
      if path.None? {
        return Ok(None);
      }
      if !proper {
        return Err(Unreadable);
      }
      var content := files[path.value];
      if content.Partial? {
        return Err(NotWhole);
      }
      var decoded := Decode(content.record);
      forall state ensures decoded == Ok(state) <==> Encode(state) == Ok(content.record) {
        CodecInverts(state, content.record);
      }
      if decoded.Err? {
        return Err(Flawed(decoded.error));
      }
      return Ok(Some(decoded.value));
    }

    /** Writes a temporary file and then makes the path name it, by linking, which
        fails if the path exists, or by renaming over it. Each flag says whether
        that file-system step succeeds; `file` is the file the system hands out. */
    method Save(state: ReceiveState, replace_: bool, file: FileId, create: bool, write: bool, publish: bool, cleanup: bool, sync: bool)
      returns (r: Result<(), SaveError>)
      requires Valid() && file !in files
      modifies this
      ensures Valid()
      // The path names the new file in full once it is published, and up to then the old
      // file in full, whichever step fails.
      ensures Current() == if Usable(state) && create && write && publish && (replace_ || old(Current()).None?)
                           then Some(Whole(Persisted(1, Some(state.receiverPrivate), Some(state.overlayPrivate), state.derpRegion)))
                           else old(Current())
      // Which step failed is what is reported.
      ensures r.Err? && r.error.Unusable? <==> !Usable(state)
      ensures r == Err(CreateFailed) <==> Usable(state) && !create
      ensures r == Err(WriteFailed) <==> Usable(state) && create && !write
      ensures r == Err(CreatedConcurrently) <==> Usable(state) && create && write && !replace_ && old(Current()).Some?
      ensures r == Err(PublishFailed) <==> Usable(state) && create && write && (replace_ || old(Current()).None?) && !publish
      ensures r == Err(CleanupFailed) <==> Usable(state) && create && write && !replace_ && old(Current()).None? && publish && !cleanup
      // Without replacement an existing file is never touched.
      ensures old(Current()).Some? && !replace_ ==> r.Err? && Current() == old(Current())
      // Success means the new identity is in place, and exactly when it succeeds is known.
      ensures r.Ok? ==> Usable(state) && Current() == Some(Whole(Encode(state).value))
      ensures r.Ok? <==> Usable(state) && create && write && publish && sync && (replace_ || (old(Current()).None? && cleanup))
      // No temporary name is left: the deferred removal is taken to succeed.
      ensures temps == old(temps)
    {
      CodecInverts(state, Persisted(0, None, None, 0));
      var persisted := Encode(state);
      if persisted.Err? {
        return Err(Unusable(persisted.error));
      }
      if !create {
        return Err(CreateFailed);
      }
      files := files[file := Partial];
      temps := temps + {file};
      if !write {
        temps := temps - {file};
        return Err(WriteFailed);
      }
      files := files[file := Whole(persisted.value)];
      if replace_ {
        if !publish {
          temps := temps - {file};
          return Err(PublishFailed);
        }
        path := Some(file);
        temps := temps - {file};
      } else {
        if path.Some? {
          temps := temps - {file};
          return Err(CreatedConcurrently);
        }
        if !publish {
          temps := temps - {file};
          return Err(PublishFailed);
        }
        path := Some(file);
        temps := temps - {file};
        if !cleanup {
          return Err(CleanupFailed);
        }
      }
      if !sync {
        return Err(SyncFailed);
      }
      return Ok(());
    }
  }
}
