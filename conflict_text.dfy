/**
 * What the file-conflict dialog says about a conflict: the classification
 * that `file_list_ready_cb` works out from the two files once their
 * information has arrived, and the label texts it assembles from it.
 *
 * Translated strings are modelled by their untranslated (C locale) text;
 * a "%s" in a format string becomes a concatenation.
 */
module ConflictText {
  import opened TextLines

  /** What the file-information layer reports about one side of a conflict. */
  datatype FileInfo = FileInfo(
    displayName: string,
    editName: string,
    isDirectory: bool,
    mtime: int,              // time_t; only ever compared
    size: string,            // the "size" string attribute
    typeDescription: string, // the "type" string attribute
    dateModified: string,    // the "date_modified" string attribute
    isBinary: bool)

  /**
   * One conflict: the file being copied (`source`), the existing file it
   * collides with (`destination`) and the display name of the folder that
   * holds the destination. `sourceHasDestMimeType` is whether the source is
   * of the destination's MIME type.
   */
  datatype Conflict = Conflict(
    source: FileInfo,
    destination: FileInfo,
    destDirName: string,
    sourceHasDestMimeType: bool)

  /** The three headlines the dialog can show. */
  datatype Headline = MergeFolder | ReplaceFolder | ReplaceFile

  /** How the source's modification time compares with the destination's. */
  datatype Age = SourceNewer | SourceOlder | SameAge

  function HeadlineOf(c: Conflict): Headline
  {
    if c.destination.isDirectory then
      if c.source.isDirectory then MergeFolder else ReplaceFolder
    else
      ReplaceFile
  }

  function AgeOf(sourceMtime: int, destMtime: int): Age
  {
    if sourceMtime > destMtime then SourceNewer
    else if sourceMtime < destMtime then SourceOlder
    else SameAge
  }

  /** The bold headline, naming the destination. */
  function HeadlineText(h: Headline, destName: string): string
  {
    match h
    case MergeFolder => "Merge folder \"" + destName + "\"?"
    case ReplaceFolder => "Replace folder \"" + destName + "\"?"
    case ReplaceFile => "Replace file \"" + destName + "\"?"
  }

  function PrimaryText(c: Conflict): string
  {
    HeadlineText(HeadlineOf(c), c.destination.displayName)
  }

  /**
   * The subject of the sentence about the existing destination. Its age
   * word describes the destination, so a newer source finds an "older"
   * folder or file. A file replacing a folder gets no age word.
   */
  function Subject(h: Headline, age: Age): string
  {
    match h
    case MergeFolder =>
      (match age
       case SourceNewer => "An older folder"
       case SourceOlder => "A newer folder"
       case SameAge => "Another folder")
    case ReplaceFolder => "A folder"
    case ReplaceFile =>
      (match age
       case SourceNewer => "An older file"
       case SourceOlder => "A newer file"
       case SameAge => "Another file")
  }

  /** The sentence "<subject> with the same name already exists in "<folder>".". */
  function MessageText(h: Headline, age: Age, dirName: string): string
  {
    Subject(h, age) + " with the same name" + " already exists in \"" + dirName + "\"."
  }

  function Message(c: Conflict): string
  {
    MessageText(HeadlineOf(c), AgeOf(c.source.mtime, c.destination.mtime), c.destDirName)
  }

  /** The sentence saying what the offered action does (each is one sentence). */
  function MessageExtra(h: Headline): string
  {
    match h
    case MergeFolder =>
      "Merging will ask for confirmation " + "before replacing any files in "
      + "the folder that conflict with " + "the files being copied."
    case ReplaceFolder => "Replacing it will remove " + "all files in the folder."
    case ReplaceFile => "Replacing it will " + "overwrite its content."
  }

  /** The secondary label: the message, a line break, then the extra sentence. */
  function SecondaryText(c: Conflict): string
  {
    Message(c) + "\n" + MessageExtra(HeadlineOf(c))
  }

  /** Both info blocks carry a "Type:" line when the MIME types differ. */
  predicate ShowsType(c: Conflict)
  {
    !c.sourceHasDestMimeType
  }

  const OriginalFileHeader := "Original file"
  const ReplaceWithHeader := "Replace with"

  /**
   * One info block, appended piece by piece: the bold header, the size,
   * optionally the type, and the modification date (the last without a
   * trailing line break).
   */
  function InfoBlock(header: string, f: FileInfo, showType: bool): string
  {
    var s := "<b>" + header + "</b>" + "\n";
    var s := s + ("Size:" + " " + f.size + "\n");
    var s := if showType then s + ("Type:" + " " + f.typeDescription + "\n") else s;
    s + ("Last modified:" + " " + f.dateModified)
  }

  /** The block describing the existing destination. */
  function OriginalFileInfo(c: Conflict): string
  {
    InfoBlock(OriginalFileHeader, c.destination, ShowsType(c))
  }

  /** The block describing the incoming source. */
  function ReplaceWithInfo(c: Conflict): string
  {
    InfoBlock(ReplaceWithHeader, c.source, ShowsType(c))
  }

  /**
   * Whether the Differences button is shown: only for two plain files, when
   * the meld program is found, and when neither file is binary.
   */
  function DiffButtonShown(c: Conflict, meldFound: bool): (shown: bool)
    ensures shown <==> !c.source.isDirectory && !c.destination.isDirectory
                       && meldFound && !c.source.isBinary && !c.destination.isBinary
    ensures shown ==> HeadlineOf(c) == ReplaceFile
  {
    if !c.source.isDirectory && !c.destination.isDirectory then
      if meldFound then !c.source.isBinary && !c.destination.isBinary else false
    else
      false
  }

  /** The replace button reads "Merge" instead of "Replace". */
  predicate RelabelsAsMerge(c: Conflict)
  {
    c.source.isDirectory && c.destination.isDirectory
  }

  // ---------------------------------------------------------------------
  // Properties of the classification
  // ---------------------------------------------------------------------

  /**
   * The headline reads "Merge folder" exactly when both sides are folders,
   * "Replace folder" exactly when only the destination is, and
   * "Replace file" otherwise, a folder replacing a file included.
   */
  lemma PrimaryTextChoice(c: Conflict)
    ensures "Merge folder" <= PrimaryText(c)
            <==> c.destination.isDirectory && c.source.isDirectory
    ensures "Replace folder" <= PrimaryText(c)
            <==> c.destination.isDirectory && !c.source.isDirectory
    ensures "Replace file" <= PrimaryText(c) <==> !c.destination.isDirectory
  {
    var t := PrimaryText(c);
    var name := c.destination.displayName;
    match HeadlineOf(c)
    case MergeFolder =>
      assert t == "Merge folder \"" + name + "\"?";
      assert t[0] == 'M';
    case ReplaceFolder =>
      assert t == "Replace folder \"" + name + "\"?";
      assert t[0] == 'R' && t[9] == 'o';
    case ReplaceFile =>
      assert t == "Replace file \"" + name + "\"?";
      assert t[0] == 'R' && t[9] == 'i';
  }

  /**
   * The age word follows the three-way comparison of modification times
   * in the merge and file-destination cases, and describes the destination:
   * a newer source finds "An older" one. A file replacing a folder always
   * gets the sentence without an age word.
   */
  lemma MessageWording(c: Conflict)
    ensures "An older " <= Message(c)
            <==> HeadlineOf(c) != ReplaceFolder && c.source.mtime > c.destination.mtime
    ensures "A newer " <= Message(c)
            <==> HeadlineOf(c) != ReplaceFolder && c.source.mtime < c.destination.mtime
    ensures "Another " <= Message(c)
            <==> HeadlineOf(c) != ReplaceFolder && c.source.mtime == c.destination.mtime
    ensures "A folder with the same name" <= Message(c) <==> HeadlineOf(c) == ReplaceFolder
  {
    var h, age := HeadlineOf(c), AgeOf(c.source.mtime, c.destination.mtime);
    var tail := " already exists in \"" + c.destDirName + "\".";
    var withName := " with the same name" + tail;
    assert Message(c) == Subject(h, age) + withName;
    if h == ReplaceFolder {
      FolderWording(tail);
    } else if age == SourceNewer {
      OlderWording(Subject(h, age), withName);
    } else if age == SourceOlder {
      NewerWording(Subject(h, age), withName);
    } else {
      AnotherWording(Subject(h, age), withName);
    }
  }

  lemma FolderWording(tail: string)
    ensures var m := "A folder" + (" with the same name" + tail);
      && "A folder with the same name" <= m
      && !("An older " <= m) && !("A newer " <= m) && !("Another " <= m)
  {
    var m := "A folder" + (" with the same name" + tail);
    assert m == ("A folder" + " with the same name") + tail;
    assert "A folder with the same name" == "A folder" + " with the same name";
    PrefixOfConcat("A folder with the same name", "A folder with the same name", tail);
    DiffersAt("An older ", m, 1);
    DiffersAt("A newer ", m, 2);
    DiffersAt("Another ", m, 1);
  }

  lemma OlderWording(subject: string, rest: string)
    requires "An older " <= subject
    ensures var m := subject + rest;
      && "An older " <= m
      && !("A newer " <= m) && !("Another " <= m) && !("A folder with the same name" <= m)
  {
    var m := subject + rest;
    PrefixOfConcat("An older ", subject, rest);
    DiffersAt("A newer ", m, 1);
    DiffersAt("Another ", m, 2);
    DiffersAt("A folder with the same name", m, 1);
  }

  lemma NewerWording(subject: string, rest: string)
    requires "A newer " <= subject
    ensures var m := subject + rest;
      && "A newer " <= m
      && !("An older " <= m) && !("Another " <= m) && !("A folder with the same name" <= m)
  {
    var m := subject + rest;
    PrefixOfConcat("A newer ", subject, rest);
    DiffersAt("An older ", m, 1);
    DiffersAt("Another ", m, 1);
    DiffersAt("A folder with the same name", m, 2);
  }

  lemma AnotherWording(subject: string, rest: string)
    requires "Another " <= subject
    ensures var m := subject + rest;
      && "Another " <= m
      && !("An older " <= m) && !("A newer " <= m) && !("A folder with the same name" <= m)
  {
    var m := subject + rest;
    PrefixOfConcat("Another ", subject, rest);
    DiffersAt("An older ", m, 2);
    DiffersAt("A newer ", m, 1);
    DiffersAt("A folder with the same name", m, 1);
  }

  lemma PrefixOfConcat(p: string, s: string, t: string)
    requires p <= s
    ensures p <= s + t
  {
    assert (s + t)[..|s|] == s;
  }

  lemma DiffersAt(p: string, s: string, i: nat)
    requires i < |p| && i < |s| && p[i] != s[i]
    ensures !(p <= s)
  {
  }

  /** The message is one line whenever the folder's name is. */
  lemma MessageSingleLine(c: Conflict)
    requires SingleLine(c.destDirName)
    ensures SingleLine(Message(c))
  {
    var subject := Subject(HeadlineOf(c), AgeOf(c.source.mtime, c.destination.mtime));
    assert SingleLine(subject);
    assert SingleLine(" with the same name") && SingleLine(" already exists in \"") && SingleLine("\".");
  }

  /** Each of the extra sentences is one line. */
  lemma MessageExtraSingleLine(h: Headline)
    ensures SingleLine(MessageExtra(h))
  {
    match h
    case MergeFolder =>
      assert SingleLine("Merging will ask for confirmation ");
      assert SingleLine("before replacing any files in ");
      assert SingleLine("the folder that conflict with ");
      assert SingleLine("the files being copied.");
    case ReplaceFolder =>
      assert SingleLine("Replacing it will remove ");
      assert SingleLine("all files in the folder.");
    case ReplaceFile =>
      assert SingleLine("Replacing it will ");
      assert SingleLine("overwrite its content.");
  }

  /**
   * The secondary label has exactly two lines: the message, then the
   * sentence on what the action does.
   */
  lemma SecondaryTextLines(c: Conflict)
    requires SingleLine(c.destDirName)
    ensures Lines(SecondaryText(c)) == [Message(c), MessageExtra(HeadlineOf(c))]
  {
    MessageSingleLine(c);
    var extra := MessageExtra(HeadlineOf(c));
    MessageExtraSingleLine(HeadlineOf(c));
    LinesOfJoin([Message(c), extra]);
    assert JoinLines([extra]) == extra;
  }

  /** The lines of an info block, in order. */
  function InfoLines(header: string, f: FileInfo, showType: bool): seq<string>
  {
    ["<b>" + header + "</b>", "Size:" + " " + f.size]
    + (if showType then ["Type:" + " " + f.typeDescription] else [])
    + ["Last modified:" + " " + f.dateModified]
  }

  /** The attributes that go into an info block hold no line break. */
  predicate SingleLineAttributes(header: string, f: FileInfo, showType: bool)
  {
    SingleLine(header) && SingleLine(f.size) && SingleLine(f.dateModified)
    && (showType ==> SingleLine(f.typeDescription))
  }

  /** Joining three or four lines is appending each line with its line break. */
  lemma JoinThree(a: string, b: string, c: string)
    ensures JoinLines([a, b, c]) == ((a + "\n") + (b + "\n")) + c
  {
    assert [a, b, c][1..] == [b, c] && [b, c][1..] == [c];
    assert JoinLines([b, c]) == (b + "\n") + c;
  }

  lemma JoinFour(a: string, b: string, c: string, d: string)
    ensures JoinLines([a, b, c, d]) == (((a + "\n") + (b + "\n")) + (c + "\n")) + d
  {
    assert [a, b, c, d][1..] == [b, c, d];
    JoinThree(b, c, d);
  }

  /**
   * An info block is its header, its Size line, its Type line when the type
   * is shown, and its Last modified line, in that order and nothing else.
   */
  lemma InfoBlockLines(header: string, f: FileInfo, showType: bool)
    requires SingleLineAttributes(header, f, showType)
    ensures Lines(InfoBlock(header, f, showType)) == InfoLines(header, f, showType)
  {
    var parts := InfoLines(header, f, showType);
    var h, sz, dt := "<b>" + header + "</b>", "Size:" + " " + f.size, "Last modified:" + " " + f.dateModified;
    assert SingleLine(h) && SingleLine(sz) && SingleLine(dt);
    if showType {
      var ty := "Type:" + " " + f.typeDescription;
      assert parts == [h, sz, ty, dt];
      JoinFour(h, sz, ty, dt);
    } else {
      assert parts == [h, sz, dt];
      JoinThree(h, sz, dt);
    }
    assert JoinLines(parts) == InfoBlock(header, f, showType);
    LinesOfJoin(parts);
  }

  /**
   * Both blocks, read line by line: "Original file" describes the
   * destination and "Replace with" the source, each as header, Size line,
   * Type line when the types differ, and Last modified line.
   */
  lemma InfoBlocksLines(c: Conflict)
    requires SingleLineAttributes(OriginalFileHeader, c.destination, ShowsType(c))
    requires SingleLineAttributes(ReplaceWithHeader, c.source, ShowsType(c))
    ensures Lines(OriginalFileInfo(c)) == InfoLines(OriginalFileHeader, c.destination, ShowsType(c))
    ensures Lines(ReplaceWithInfo(c)) == InfoLines(ReplaceWithHeader, c.source, ShowsType(c))
  {
    InfoBlockLines(OriginalFileHeader, c.destination, ShowsType(c));
    InfoBlockLines(ReplaceWithHeader, c.source, ShowsType(c));
  }

  /**
   * A "Type:" line appears in both blocks exactly when the source is not of
   * the destination's MIME type, and then it is the third line of each.
   */
  lemma TypeLineInBothBlocks(c: Conflict)
    requires SingleLineAttributes(OriginalFileHeader, c.destination, ShowsType(c))
    requires SingleLineAttributes(ReplaceWithHeader, c.source, ShowsType(c))
    ensures |Lines(OriginalFileInfo(c))| == |Lines(ReplaceWithInfo(c))|
            == if c.sourceHasDestMimeType then 3 else 4
    ensures !c.sourceHasDestMimeType ==>
              Lines(OriginalFileInfo(c))[2] == "Type:" + " " + c.destination.typeDescription
              && Lines(ReplaceWithInfo(c))[2] == "Type:" + " " + c.source.typeDescription
  {
    InfoBlocksLines(c);
  }
}
