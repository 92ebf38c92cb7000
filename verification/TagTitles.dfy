/** Titles that spell a folder path, one dot between the parts. */
module TagTitles {

  const DELIMITER: char := '.'

  predicate Simple(title: string) {
    DELIMITER !in title
  }

  /** `title.split('.')` */
  function Split(title: string): (parts: seq<string>)
    ensures parts != []
  {
    if title == "" then [""]
    else
      var rest := Split(title[1..]);
      if title[0] == DELIMITER then [""] + rest else [[title[0]] + rest[0]] + rest[1..]
  }

  function Join(parts: seq<string>): string
    requires parts != []
  {
    if |parts| == 1 then parts[0] else parts[0] + [DELIMITER] + Join(parts[1..])
  }

  lemma {:induction false} PartsAreSimple(title: string)
    ensures forall part :: part in Split(title) ==> Simple(part)
  {
    if title != "" {
      PartsAreSimple(title[1..]);
      var rest := Split(title[1..]);
      assert rest[0] in rest;
      forall part | part in Split(title) ensures Simple(part) {
        if part in rest[1..] {
          assert part in rest;
        }
      }
    }
  }

  /** Splitting loses nothing. */
  lemma {:induction false} JoinSplit(title: string)
    ensures Join(Split(title)) == title
  {
    if title != "" {
      JoinSplit(title[1..]);
      var rest := Split(title[1..]);
      var parts := Split(title);
      if title[0] == DELIMITER {
        assert parts[1..] == rest;
      } else if |rest| > 1 {
        assert parts[1..] == rest[1..];
        assert parts[0] + [DELIMITER] + Join(parts[1..]) == [title[0]] + (rest[0] + [DELIMITER] + Join(rest[1..]));
      }
      assert title == [title[0]] + title[1..];
    }
  }

  /** A part followed by a dot splits off, whatever comes after. */
  lemma {:induction false} SplitOff(part: string, rest: string)
    requires Simple(part)
    ensures Split(part + [DELIMITER] + rest) == [part] + Split(rest)
  {
    var title := part + [DELIMITER] + rest;
    if part == "" {
      assert title[1..] == rest;
    } else {
      assert title[1..] == part[1..] + [DELIMITER] + rest;
      SplitOff(part[1..], rest);
      assert [title[0]] + part[1..] == part;
    }
  }

  lemma {:induction false} SplitSimple(title: string)
    ensures Simple(title) <==> |Split(title)| == 1
    ensures Simple(title) ==> Split(title) == [title]
  {
    if title != "" {
      SplitSimple(title[1..]);
      assert title == [title[0]] + title[1..];
    }
  }

  /** The split is the only way to read a title as simple parts. */
  lemma {:induction false} SplitJoin(parts: seq<string>)
    requires parts != [] && forall part :: part in parts ==> Simple(part)
    ensures Split(Join(parts)) == parts
  {
    if |parts| == 1 {
      SplitSimple(parts[0]);
    } else {
      SplitJoin(parts[1..]);
      SplitOff(parts[0], Join(parts[1..]));
    }
  }
}
