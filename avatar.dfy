/**
 * The local avatar generator (frontend/static/js/avatar.js): the initials
 * drawn on a generated avatar, and setAvatar's guard. The canvas drawing is
 * abstracted to the picture it describes.
 */
module Avatar {
  import opened Text

  /** The first character of a word; an empty word (`n[0]` undefined) contributes nothing to the join. */
  function FirstOf(word: string): (r: string)
    ensures |r| <= 1 && (r == [] <==> word == [])
    ensures r != [] ==> r[0] == word[0]
  {
    if word == [] then [] else [word[0]]
  }

  /** `map(n => n[0]).join('')`. */
  function Firsts(words: seq<string>): (r: string)
    ensures |r| <= |words|
  {
    if words == [] then [] else FirstOf(words[0]) + Firsts(words[1..])
  }

  /** `name.split(' ').map(n => n[0]).join('').toUpperCase().slice(0, 2)`, with ASCII upper-casing. */
  function Initials(name: string): (r: string)
    ensures |r| <= 2
    ensures forall i :: 0 <= i < |r| ==> !('a' <= r[i] <= 'z')
    ensures r == [] <==> forall i :: 0 <= i < |name| ==> name[i] == ' '
  {
    var letters := ToUpper(Firsts(Split(name, ' ')));
    FirstsEmptyIffBlank(name);
    if |letters| <= 2 then letters else letters[..2]
  }

  lemma {:induction false} FirstsEmptyIffBlank(name: string)
    ensures Firsts(Split(name, ' ')) == [] <==> forall i :: 0 <= i < |name| ==> name[i] == ' '
    decreases |name|
  {
    if name != [] {
      FirstsEmptyIffBlank(name[1..]);
      var rest := Split(name[1..], ' ');
      if name[0] == ' ' {
        assert Split(name, ' ') == [""] + rest;
        assert ([""] + rest)[1..] == rest;
        assert (forall i :: 0 <= i < |name| ==> name[i] == ' ') <==> (forall i :: 0 <= i < |name[1..]| ==> name[1..][i] == ' ');
      } else {
        var parts := Split(name, ' ');
        assert parts[0] == [name[0]] + rest[0];
      }
    }
  }

  /**
   * The same letters read off the characters: each non-space character that
   * starts the string or follows a space (`afterSpace` says whether the
   * character before `s` was a space, or there was none).
   */
  function WordStarts(s: string, afterSpace: bool): (r: string)
    ensures |r| <= |s|
    ensures forall i :: 0 <= i < |r| ==> r[i] != ' '
  {
    if s == [] then []
    else (if s[0] != ' ' && afterSpace then [s[0]] else []) + WordStarts(s[1..], s[0] == ' ')
  }

  /** Whether the character after `s` follows a space, given `afterSpace` for `s` itself. */
  function EndsAfterSpace(s: string, afterSpace: bool): bool
  {
    if s == [] then afterSpace else s[|s| - 1] == ' '
  }

  /** Empty words, from leading, repeated or trailing spaces, add nothing: the joined first letters are the word starts. */
  lemma {:induction false} FirstsAreWordStarts(s: string)
    ensures Firsts(Split(s, ' ')) == WordStarts(s, true)
    ensures Firsts(Split(s, ' ')[1..]) == WordStarts(s, false)
    decreases |s|
  {
    if s != [] {
      FirstsAreWordStarts(s[1..]);
      var rest := Split(s[1..], ' ');
      if s[0] == ' ' {
        assert Split(s, ' ') == [""] + rest;
        assert ([""] + rest)[1..] == rest;
      } else {
        var parts := Split(s, ' ');
        assert parts == [[s[0]] + rest[0]] + rest[1..];
        assert parts[1..] == rest[1..];
      }
    }
  }

  lemma {:induction false} WordStartsAppend(x: string, y: string, afterSpace: bool)
    ensures WordStarts(x + y, afterSpace) == WordStarts(x, afterSpace) + WordStarts(y, EndsAfterSpace(x, afterSpace))
    decreases |x|
  {
    if x == [] {
      assert x + y == y;
    } else {
      var head := if x[0] != ' ' && afterSpace then [x[0]] else [];
      assert (x + y)[0] == x[0] && (x + y)[1..] == x[1..] + y;
      assert WordStarts(x + y, afterSpace) == head + WordStarts(x[1..] + y, x[0] == ' ');
      WordStartsAppend(x[1..], y, x[0] == ' ');
      assert EndsAfterSpace(x[1..], x[0] == ' ') == EndsAfterSpace(x, afterSpace) by {
        if x[1..] != [] {
          assert x[1..][|x[1..]| - 1] == x[|x| - 1];
        }
      }
    }
  }

  /** Initials, restated over the word starts. */
  lemma InitialsFromWordStarts(name: string)
    ensures var letters := ToUpper(WordStarts(name, true));
      Initials(name) == if |letters| <= 2 then letters else letters[..2]
  {
    FirstsAreWordStarts(name);
  }

  /** After a space, whatever came before, the word starts are those of the rest. */
  lemma SpaceResets(b: string, afterSpace: bool)
    ensures WordStarts(" " + b, afterSpace) == WordStarts(b, true)
  {
    assert (" " + b)[1..] == b;
  }

  lemma DoubledSpaceStarts(a: string, b: string)
    ensures WordStarts(a + "  " + b, true) == WordStarts(a + " " + b, true)
  {
    var g := EndsAfterSpace(a, true);
    assert a + "  " + b == a + (" " + (" " + b));
    assert a + " " + b == a + (" " + b);
    WordStartsAppend(a, " " + (" " + b), true);
    WordStartsAppend(a, " " + b, true);
    SpaceResets(" " + b, g);
    SpaceResets(b, true);
    SpaceResets(b, g);
  }

  /** A doubled space between two parts of a name changes nothing. */
  lemma DoubledSpaceIgnored(a: string, b: string)
    ensures Initials(a + "  " + b) == Initials(a + " " + b)
  {
    InitialsFromWordStarts(a + "  " + b);
    InitialsFromWordStarts(a + " " + b);
    DoubledSpaceStarts(a, b);
  }

  /** A trailing space changes nothing. */
  lemma TrailingSpaceIgnored(name: string)
    ensures Initials(name + " ") == Initials(name)
  {
    InitialsFromWordStarts(name + " ");
    InitialsFromWordStarts(name);
    WordStartsAppend(name, " ", true);
    assert WordStarts(" ", EndsAfterSpace(name, true)) == [] + WordStarts([], true);
  }

  lemma {:induction false} NoStartInsideWord(w: string)
    requires ' ' !in w
    ensures WordStarts(w, false) == []
    decreases |w|
  {
    if w != [] {
      NoStartInsideWord(w[1..]);
    }
  }

  /** Words joined by single spaces start exactly at their first letters. */
  lemma {:induction false} JoinedWordStarts(ws: seq<string>)
    requires forall i :: 0 <= i < |ws| ==> ws[i] != [] && ' ' !in ws[i]
    ensures |WordStarts(Join(ws, ' '), true)| == |ws|
    ensures forall i :: 0 <= i < |ws| ==> WordStarts(Join(ws, ' '), true)[i] == ws[i][0]
    decreases |ws|
  {
    if ws != [] {
      var w := ws[0];
      NoStartInsideWord(w[1..]);
      assert WordStarts(w, true) == [w[0]];
      if |ws| > 1 {
        JoinedWordStarts(ws[1..]);
        var rest := Join(ws[1..], ' ');
        assert Join(ws, ' ') == w + ([' '] + rest);
        WordStartsAppend(w, [' '] + rest, true);
        assert ([' '] + rest)[1..] == rest;
      }
    }
  }

  /**
   * Non-empty words without spaces, joined by single spaces, give the
   * upper-cased first letters of the first two words, or of the one word.
   */
  lemma WordsInitials(ws: seq<string>)
    requires forall i :: 0 <= i < |ws| ==> ws[i] != [] && ' ' !in ws[i]
    ensures |Initials(Join(ws, ' '))| == if |ws| < 2 then |ws| else 2
    ensures forall i :: 0 <= i < |Initials(Join(ws, ' '))| ==> Initials(Join(ws, ' '))[i] == ToUpperChar(ws[i][0])
  {
    InitialsFromWordStarts(Join(ws, ' '));
    JoinedWordStarts(ws);
  }

  /** A leading space (an empty first word) changes nothing. */
  lemma LeadingSpaceIgnored(name: string)
    ensures Initials(" " + name) == Initials(name)
  {
    var s := " " + name;
    assert s[1..] == name;
    assert Split(s, ' ') == [""] + Split(name, ' ');
    assert ([""] + Split(name, ' '))[1..] == Split(name, ' ');
  }

  /** Two words give the two first letters, upper-cased. */
  lemma TwoWords(first: string, last: string)
    requires first != [] && last != [] && ' ' !in first && ' ' !in last
    ensures Initials(first + " " + last) == [ToUpperChar(first[0]), ToUpperChar(last[0])]
  {
    SplitAtSeparator(first, ' ', last);
    assert first + " " + last == first + [' '] + last;
    var words := [first, last];
    assert Firsts(words) == [first[0]] + Firsts([last]);
    assert Firsts([last]) == [last[0]] + Firsts([]);
  }

  /** What generateAvatar draws: the initials in white on the brand green, on a square of the given size. */
  datatype Picture =
    | Url(url: string)
    | Generated(initials: string, size: int, background: string, textColor: string)

  function GenerateAvatar(name: string, size: int): (p: Picture)
    ensures p.Generated? && p.initials == Initials(name) && p.size == size
  {
    Generated(Initials(name), size, "#25d366", "#ffffff")
  }

  /** An `<img>` whose source setAvatar replaces. */
  class ImageElement {
    var src: Picture

    constructor(src: Picture)
      ensures this.src == src
    {
      this.src := src;
    }
  }

  /** setAvatar: a present element shows the generated avatar; a missing one is left alone. */
  method SetAvatar(element: ImageElement?, name: string, size: int)
    modifies element
    ensures element != null ==> element.src == GenerateAvatar(name, size)
  {
    if element != null {
      element.src := GenerateAvatar(name, size);
    }
  }
}
