/** backup_db.js: copy `tickets.db` into `backups/` under a name that carries the time
    of the backup. The name is a pure derivation from the ISO-8601 time; the script's
    top-level statements act on a file system, modelled as a class holding the
    existing directories and files. The clock is a parameter. */
module Backup {
  import opened Text

  const DB_FILE := "tickets.db"
  const BACKUP_DIR := "backups"
  const BACKUP_PREFIX := "tickets_backup_"
  const BACKUP_SUFFIX := ".db"

  /** What the timestamp derivation makes of one character of the ISO time: ':' and '.'
      become '-', the date/time separator 'T' becomes '_'. */
  function TimestampChar(c: char): char {
    if c == ':' || c == '.' then '-' else if c == 'T' then '_' else c
  }

  /** `iso.replace(/[:.]/g, '-').split('T').join('_').slice(0, 19)`: the first 19
      characters of the time, each mapped by `TimestampChar`. */
  function Timestamp(iso: string): (ts: string)
    ensures |ts| == if |iso| <= 19 then |iso| else 19
    ensures forall i :: 0 <= i < |ts| ==> ts[i] == TimestampChar(iso[i])
    ensures ':' !in ts && '.' !in ts && 'T' !in ts
  {
    var dashed := ReplaceAny(iso, {':', '.'}, '-');
    JoinSplitReplaces(dashed, 'T', '_');
    Take(Join(Split(dashed, 'T'), "_"), 19)
  }

  /** For a time as `toISOString` writes it, the timestamp is `YYYY-MM-DD_HH-MM-SS`:
      the date, then hours, minutes and seconds, milliseconds dropped. */
  lemma IsoTimestamp(iso: string)
    requires IsIsoString(iso)
    ensures Timestamp(iso) == iso[..10] + "_" + iso[11..13] + "-" + iso[14..16] + "-" + iso[17..19]
    ensures Timestamp(iso)[..10] == iso[..10]
  {
    var ts := Timestamp(iso);
    var expected := iso[..10] + "_" + iso[11..13] + "-" + iso[14..16] + "-" + iso[17..19];
    assert |expected| == 19;
    forall i | 0 <= i < 19
      ensures ts[i] == expected[i]
    {
      if i !in {4, 7, 10, 13, 16} {
        assert IsDigit(iso[i]);
      }
    }
  }

  /** `tickets_backup_<timestamp>.db`. */
  function BackupFilename(iso: string): string {
    BACKUP_PREFIX + Timestamp(iso) + BACKUP_SUFFIX
  }

  /** `path.join(dir, name)` for a relative directory and a plain file name. */
  function PathJoin(dir: string, name: string): string {
    dir + "/" + name
  }

  /** Where a backup taken at `iso` is written. */
  function BackupPath(iso: string): (path: string)
    ensures StartsWith(path, BACKUP_DIR + "/" + BACKUP_PREFIX)
    ensures path != DB_FILE
  {
    var path := PathJoin(BACKUP_DIR, BackupFilename(iso));
    assert path[0] == 'b' && DB_FILE[0] == 't';
    path
  }

  /** Distinct timestamps give distinct backup paths. */
  lemma BackupPathInjective(a: string, b: string)
    ensures BackupPath(a) == BackupPath(b) <==> Timestamp(a) == Timestamp(b)
  {
    var pre := BACKUP_DIR + "/" + BACKUP_PREFIX;
    var pa, pb := BackupPath(a), BackupPath(b);
    assert pa == pre + Timestamp(a) + BACKUP_SUFFIX;
    assert pb == pre + Timestamp(b) + BACKUP_SUFFIX;
    if pa == pb {
      assert Timestamp(a) == pa[|pre|..|pa| - |BACKUP_SUFFIX|];
      assert Timestamp(b) == pb[|pre|..|pb| - |BACKUP_SUFFIX|];
    }
  }

  /** For ISO times, the timestamps agree exactly when the times agree to the second. */
  lemma TimestampSameSecond(a: string, b: string)
    requires IsIsoString(a) && IsIsoString(b)
    ensures Timestamp(a) == Timestamp(b) <==> a[..19] == b[..19]
  {
    var ta, tb := Timestamp(a), Timestamp(b);
    if ta == tb {
      forall i | 0 <= i < 19
        ensures a[i] == b[i]
      {
        assert TimestampChar(a[i]) == TimestampChar(b[i]);
        if i !in {4, 7, 10, 13, 16} {
          assert IsDigit(a[i]) && IsDigit(b[i]);
        }
      }
      assert a[..19] == b[..19];
    }
    if a[..19] == b[..19] {
      assert forall i :: 0 <= i < 19 ==> a[i] == a[..19][i] == b[..19][i] == b[i];
      assert ta == tb;
    }
  }

  /** Two backups go to the same path exactly when their times agree to the second:
      a second backup within the same second overwrites the first. */
  lemma SamePathSameSecond(a: string, b: string)
    requires IsIsoString(a) && IsIsoString(b)
    ensures BackupPath(a) == BackupPath(b) <==> a[..19] == b[..19]
  {
    BackupPathInjective(a, b);
    TimestampSameSecond(a, b);
  }

  datatype BackupResult = Copied(path: string) | DatabaseMissing | CopyFailed

  /** The file system the script sees: directory paths and file contents by path. */
  class FileSystem {
    var dirs: set<string>
    var files: map<string, seq<bv8>>

    constructor (dirs: set<string>, files: map<string, seq<bv8>>)
      ensures this.dirs == dirs && this.files == files
    {
      this.dirs := dirs;
      this.files := files;
    }

    /** `fs.existsSync(path)`: a file or a directory is there. */
    function Exists(path: string): bool
      reads this
    {
      path in dirs || path in files
    }

    /** The script: create `backups` when nothing of that name exists; then copy the
        database into it when the database exists, reporting a missing database
        otherwise; `copyFileSync` fails, inside the `try`, when the database is a
        directory or `backups` is not one. The database itself is never changed. */
    method RunBackup(isoNow: string) returns (madeDir: bool, result: BackupResult)
      modifies this
      ensures madeDir <==> !old(Exists(BACKUP_DIR))
      ensures dirs == if madeDir then old(dirs) + {BACKUP_DIR} else old(dirs)
      ensures !old(Exists(DB_FILE)) ==> result == DatabaseMissing && files == old(files)
      ensures old(Exists(DB_FILE)) && (DB_FILE !in old(files) || BACKUP_DIR !in dirs) ==>
        result == CopyFailed && files == old(files)
      ensures DB_FILE in old(files) && BACKUP_DIR in dirs ==>
        result == Copied(BackupPath(isoNow)) && files == old(files)[BackupPath(isoNow) := old(files)[DB_FILE]]
      ensures DB_FILE in old(files) ==> DB_FILE in files && files[DB_FILE] == old(files)[DB_FILE]
    {
      madeDir := !Exists(BACKUP_DIR);
      if madeDir {
        dirs := dirs + {BACKUP_DIR};
      }
      var backupPath := BackupPath(isoNow);
      if Exists(DB_FILE) {
        if DB_FILE in files && BACKUP_DIR in dirs {
          files := files[backupPath := files[DB_FILE]];
          result := Copied(backupPath);
        } else {
          result := CopyFailed;
        }
      } else {
        result := DatabaseMissing;
      }
    }
  }
}
