/** The shape of a downloads directory: genre directories holding `.mp3`
    files. Reading the filesystem is not modelled; a directory listing is
    given as a value, in the order the listing yields it. */
module Dataset {

  /** One audio file: its path (the key the source uses in its result
      dictionaries), its stem and what the library calls report for it. */
  datatype AudioFile<C> = AudioFile(path: string, stem: string, content: C)

  /** One entry of the downloads directory. Entries that are not directories
      are skipped by every traversal. */
  datatype GenreDir<C> = GenreDir(name: string, isDir: bool, files: seq<AudioFile<C>>)

  /** The files a two-level traversal visits, in visiting order: the files of
      each genre directory in turn. The dataset folds that do not need the
      genre iterate this sequence. */
  function Listing<C>(dirs: seq<GenreDir<C>>): (fs: seq<AudioFile<C>>)
    ensures forall f :: f in fs ==> exists g :: 0 <= g < |dirs| && dirs[g].isDir && f in dirs[g].files
    ensures forall g, f :: 0 <= g < |dirs| && dirs[g].isDir && f in dirs[g].files ==> f in fs
  {
    if dirs == [] then []
    else
      var last := dirs[|dirs| - 1];
      var before := Listing(dirs[..|dirs| - 1]);
      assert forall g :: 0 <= g < |dirs| - 1 ==> dirs[..|dirs| - 1][g] == dirs[g];
      before + (if last.isDir then last.files else [])
  }

  /** A single entry lists its own files when it is a directory, and nothing otherwise. */
  lemma ListingOfOne<C>(d: GenreDir<C>)
    ensures Listing([d]) == if d.isDir then d.files else []
  {
  }

  /** Listing two runs of entries lists the files of the first run, then those
      of the second: directories are visited one after another, in order. */
  lemma {:induction false} ListingAppend<C>(a: seq<GenreDir<C>>, b: seq<GenreDir<C>>)
    ensures Listing(a + b) == Listing(a) + Listing(b)
    decreases |b|
  {
    if b == [] {
      assert a + b == a;
    } else {
      var b' := b[..|b| - 1];
      assert (a + b)[..|a + b| - 1] == a + b';
      assert (a + b)[|a + b| - 1] == b[|b| - 1];
      ListingAppend(a, b');
    }
  }
}
