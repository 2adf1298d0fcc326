/** The level catalog of the game: ten levels, each with five fixtures
    (a sample text and whether an ideal pattern should match it).
    Titles, descriptions and hints are display text and are not modelled. */
module Levels {

  /** One sample string of a level and the expected verdict for it. */
  datatype Fixture = Fixture(text: string, shouldMatch: bool)

  datatype Level = Level(id: nat, testStrings: seq<Fixture>)

  /** The number of levels. */
  const LevelCount: nat := 10

  /** The catalog, in play order. */
  function Catalog(): (r: seq<Level>)
    ensures |r| == LevelCount
    ensures forall i :: 0 <= i < |r| ==> r[i].id == i + 1 && |r[i].testStrings| == 5
    ensures forall i :: 0 <= i < |r| ==>
              r[i].testStrings[0].shouldMatch && !r[i].testStrings[3].shouldMatch
  {
    [ Level(1, [ Fixture("user@example.com", true),
                 Fixture("test.email@domain.org", true),
                 Fixture("invalid.email", false),
                 Fixture("user@", false),
                 Fixture("another@test.co.uk", true) ]),
      Level(2, [ Fixture("(555) 123-4567", true),
                 Fixture("(999) 888-7777", true),
                 Fixture("555-123-4567", false),
                 Fixture("(555) 123-456", false),
                 Fixture("(123) 456-7890", true) ]),
      Level(3, [ Fixture("#FF5733", true),
                 Fixture("#123ABC", true),
                 Fixture("#GGG", false),
                 Fixture("FF5733", false),
                 Fixture("#abc123", true) ]),
      Level(4, [ Fixture("2025-08-04", true),
                 Fixture("1999-12-31", true),
                 Fixture("04-08-2025", false),
                 Fixture("2025/08/04", false),
                 Fixture("2025-8-4", false) ]),
      Level(5, [ Fixture("my-cool-blog-post", true),
                 Fixture("hello-world-123", true),
                 Fixture("not_valid_slug!", false),
                 Fixture("UPPERCASE", false),
                 Fixture("contains spaces", false) ]),
      Level(6, [ Fixture("1234 5678 9012 3456", true),
                 Fixture("0000 1111 2222 3333", true),
                 Fixture("1234567890123456", false),
                 Fixture("1234-5678-9012-3456", false),
                 Fixture("abcd efgh ijkl mnop", false) ]),
      Level(7, [ Fixture("3.14", true),
                 Fixture("-0.001", true),
                 Fixture("+42.0", true),
                 Fixture("42", false),
                 Fixture("3,14", false) ]),
      Level(8, [ Fixture("<b>", true),
                 Fixture("</div>", true),
                 Fixture("<img>", true),
                 Fixture("b", false),
                 Fixture("<<p>>", false) ]),
      Level(9, [ Fixture("P@ssw0rd", true),
                 Fixture("Strong#123", true),
                 Fixture("weakpassword", false),
                 Fixture("12345678", false),
                 Fixture("NOspecial123", false) ]),
      Level(10, [ Fixture("192.168.0.1", true),
                  Fixture("8.8.8.8", true),
                  Fixture("999.999.999.999", false),
                  Fixture("192.168.1", false),
                  Fixture("abc.def.ghi.jkl", false) ]) ]
  }

  /** A level has a fixture that should match and one that should not. */
  predicate HasBothVerdicts(level: Level)
  {
    (exists i :: 0 <= i < |level.testStrings| && level.testStrings[i].shouldMatch) &&
    (exists j :: 0 <= j < |level.testStrings| && !level.testStrings[j].shouldMatch)
  }

  /** No level can be won by a pattern that matches everything or nothing. */
  lemma EveryLevelHasBothVerdicts(k: nat)
    requires k < LevelCount
    ensures HasBothVerdicts(Catalog()[k])
  {
    var level := Catalog()[k];
    assert level.testStrings[0].shouldMatch;
    assert !level.testStrings[3].shouldMatch;
  }

  /** The index of the last level. */
  const LastIndex: nat := LevelCount - 1
}
