/**
 * `FactoryBuilder`: where the configuration manifest lives. It keeps a
 * directory name, a file name and the path made of the two, and `setPath`
 * replaces all three together, so the path is always the directory, the
 * separator and the file name. The static fields of the source are the
 * fields of the one `FactoryBuilder` object here.
 */
module Builder {
  import opened Lang

  /** `File.separator`, fixed to the Unix one. */
  const SEPARATOR: string := "/"

  const DEFAULT_DIR_NAME: string := "quickquarantine"
  const DEFAULT_FILE_NAME: string := "quickquarantine.properties"

  /** `String.format("%s%s%s", dirName, File.separator, fileName)`; a null name prints as "null". */
  function PathOf(dirName: Option<string>, fileName: Option<string>): (r: string)
    ensures |r| == |OptionText(dirName)| + 1 + |OptionText(fileName)|
    ensures r[..|OptionText(dirName)|] == OptionText(dirName) && r[|OptionText(dirName)|] == '/'
    ensures r[|OptionText(dirName)| + 1..] == OptionText(fileName)
  {
    OptionText(dirName) + SEPARATOR + OptionText(fileName)
  }

  /**
   * A file name without a separator can be read back off the path: two
   * paths are equal only when their directory names and file names are.
   */
  lemma {:induction false} PathDeterminesNames(d1: string, f1: string, d2: string, f2: string)
    requires '/' !in f1 && '/' !in f2
    requires d1 + SEPARATOR + f1 == d2 + SEPARATOR + f2
    ensures d1 == d2 && f1 == f2
  {
    var s := d1 + SEPARATOR + f1;
    assert s[|d1|] == '/' && s[|d2|] == '/';
    assert d1 == s[..|d1|] == d2;
    assert f1 == s[|d1| + 1..] == f2;
  }

  class FactoryBuilder {
    var dirName: Option<string>
    var fileName: Option<string>
    var path: string

    ghost predicate Valid()
      reads this
    {
      path == PathOf(dirName, fileName)
    }

    /** The state the static initialisers leave. */
    constructor ()
      ensures dirName == Some(DEFAULT_DIR_NAME) && fileName == Some(DEFAULT_FILE_NAME)
      ensures path == "quickquarantine/quickquarantine.properties"
      ensures Valid()
    {
      dirName := Some(DEFAULT_DIR_NAME);
      fileName := Some(DEFAULT_FILE_NAME);
      path := PathOf(Some(DEFAULT_DIR_NAME), Some(DEFAULT_FILE_NAME));
    }

    /** Points the builder at another manifest; the path follows the two names. */
    method SetPath(dirName: Option<string>, fileName: Option<string>)
      modifies this
      ensures this.dirName == dirName && this.fileName == fileName
      ensures path == OptionText(dirName) + "/" + OptionText(fileName)
      ensures Valid()
    {
      this.dirName := dirName;
      this.fileName := fileName;
      this.path := PathOf(dirName, fileName);
    }

    function GetDirName(): Option<string>
      reads this
    {
      dirName
    }

    function GetFileName(): Option<string>
      reads this
    {
      fileName
    }

    function GetPath(): (p: string)
      reads this
      requires Valid()
      ensures p == OptionText(GetDirName()) + "/" + OptionText(GetFileName())
    {
      path
    }
  }
}
