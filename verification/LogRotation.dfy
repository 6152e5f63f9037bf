/** Rotation of FanIn's log files with compression: an in-place shift over the files of a directory. */
module LogRotation {

  datatype File = Current | Uncompressed | Archive(i: nat)
  datatype Content = Text(text: string) | Gzip(text: string)
  datatype Entry = Absent | Present(content: Content)

  function At(files: map<File, Content>, f: File): Entry {
    if f in files then Present(files[f]) else Absent
  }

  /** The directory after the logs `closed` (oldest first) have been closed: the current log, the
      `count` most recent ones compressed, number 1 the latest, and nothing else. */
  function Expected(closed: seq<string>, count: nat, current: string, f: File): Entry {
    match f
    case Current => Present(Text(current))
    case Uncompressed => Absent
    case Archive(i) =>
      if 1 <= i <= count && i <= |closed| then Present(Gzip(closed[|closed| - i])) else Absent
  }

  ghost predicate Holds(files: map<File, Content>, closed: seq<string>, count: nat, current: string) {
    forall f: File :: At(files, f) == Expected(closed, count, current, f)
  }

  /** The shift half way, in any directory: an archive above i + 1 has taken over from the one below
      it if that was there, and has moved away itself otherwise (the last one stays); archive i + 1
      has moved away unless nothing has happened yet; archives up to i are as they were. */
  function Shifting(before: map<File, Content>, count: nat, i: nat, f: File): Entry {
    if !f.Archive? || f.i <= i || f.i > count then At(before, f)
    else if f.i > i + 1 && Archive(f.i - 1) in before then At(before, Archive(f.i - 1))
    else if f.i == count then At(before, f)
    else Absent
  }

  ghost predicate IsShifting(files: map<File, Content>, before: map<File, Content>, count: nat, i: nat) {
    forall f: File :: At(files, f) == Shifting(before, count, i, f)
  }

  /** One round of the loop: archive i is renamed to i + 1, replacing what was there. */
  function Renamed(files: map<File, Content>, i: nat): map<File, Content> {
    if Archive(i) in files then (files - {Archive(i + 1)})[Archive(i + 1) := files[Archive(i)]] - {Archive(i)}
    else files
  }

  lemma RenamedAt(files: map<File, Content>, i: nat, f: File)
    ensures At(Renamed(files, i), f) ==
            if Archive(i) !in files then At(files, f)
            else if f == Archive(i + 1) then At(files, Archive(i))
            else if f == Archive(i) then Absent
            else At(files, f)
  {
  }

  lemma ShiftStep(files: map<File, Content>, before: map<File, Content>, count: nat, i: nat)
    requires 0 < i < count && IsShifting(files, before, count, i)
    ensures IsShifting(Renamed(files, i), before, count, i - 1)
  {
    forall f: File
      ensures At(Renamed(files, i), f) == Shifting(before, count, i - 1, f)
    {
      RenamedAt(files, i, f);
      assert At(files, f) == Shifting(before, count, i, f);
      assert At(files, Archive(i)) == At(before, Archive(i));
    }
  }

  class RotatingFileHandlerWithCompression {
    const backupCount: nat
    var files: map<File, Content>

    /** The logs closed so far and the text of the current one, for the statements below. */
    ghost var closed: seq<string>
    ghost var current: string

    ghost predicate Valid()
      reads this
    {
      Holds(files, closed, backupCount, current) && (backupCount == 0 ==> closed == [])
    }

    constructor (backupCount: nat)
      ensures Valid() && this.backupCount == backupCount && closed == [] && current == ""
    {
      this.backupCount := backupCount;
      files := map[Current := Text("")];
      closed, current := [], "";
    }

    method Emit(line: string)
      requires Valid()
      modifies this
      ensures Valid() && closed == old(closed) && current == old(current) + line
    {
      assert At(files, Current) == Present(Text(current));
      ghost var before := files;
      files := files[Current := Text(files[Current].text + line)];
      current := current + line;
      assert forall f: File :: f != Current ==> At(files, f) == At(before, f);
    }

    /** What the base class does: with backups, the current log becomes ".1" and a new one is begun;
        without, the log just goes on. */
    method BaseRollover()
      requires Current in files
      modifies this`files
      ensures files == if backupCount > 0
                       then old(files)[Uncompressed := old(files)[Current]][Current := Text("")]
                       else old(files)
    {
      if backupCount > 0 {
        files := files[Uncompressed := files[Current]][Current := Text("")];
      }
    }

    /** The shift, on any directory: archive i moves to i + 1, from the oldest down, and replaces
        what was there. */
    method ShiftArchives()
      requires backupCount > 0
      modifies this`files
      ensures IsShifting(files, old(files), backupCount, 0)
    {
      var i := backupCount - 1;
      while i > 0
        invariant 0 <= i < backupCount && IsShifting(files, old(files), backupCount, i)
      {
        ShiftStep(files, old(files), backupCount, i);
        var sfn, dfn := Archive(i), Archive(i + 1);
        if sfn in files {
          if dfn in files {
            files := files - {dfn};
          }
          files := files[dfn := files[sfn]] - {sfn};
        }
        i := i - 1;
      }
    }

    /** After any number of rollovers the archives are exactly the window of the most recently closed
        logs, archive i decompresses to the i-th most recent one, and no uncompressed ".1" remains. */
    method DoRollover()
      requires Valid()
      modifies this
      ensures Valid()
      ensures if backupCount > 0 then closed == old(closed) + [old(current)] && current == ""
              else closed == old(closed) && current == old(current)
    {
      ghost var before := files;
      assert At(files, Current) == Present(Text(current));
      BaseRollover();
      if backupCount > 0 {
        ghost var based := files;
        forall k: nat
          ensures At(files, Archive(k)) == Expected(closed, backupCount, current, Archive(k))
        {
          assert At(before, Archive(k)) == Expected(closed, backupCount, current, Archive(k));
        }
        ShiftArchives();
        ghost var shifted := files;
        assert At(files, Uncompressed) == Shifting(based, backupCount, 0, Uncompressed) == Present(Text(current));
        var oldLog := files[Uncompressed];
        files := files[Archive(1) := Gzip(oldLog.text)];
        files := files - {Uncompressed};
        closed, current := closed + [current], "";
        forall f: File
          ensures At(files, f) == Expected(closed, backupCount, current, f)
        {
          assert At(shifted, f) == Shifting(based, backupCount, 0, f);
          if f.Archive? {
            assert At(based, f) == Expected(old(closed), backupCount, old(current), f);
          }
          if f.Archive? && f.i >= 2 {
            assert At(based, Archive(f.i - 1)) == Expected(old(closed), backupCount, old(current), Archive(f.i - 1));
          }
        }
      }
    }
  }
}
