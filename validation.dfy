/** The image-extension test `validImg` and the game-validity condition of the write routes. */
module Validation {
  import opened Js

  /** The library calls whose definitions are not part of this model, taken as given functions. */
  datatype Libraries = Libraries(
    isValidId: string -> bool,  // mongoose.Types.ObjectId.isValid
    isUri: Value -> Value,      // validURL.isUri: the JS value it returns
    isNaN: Value -> bool)       // the global isNaN, with its coercion of the argument

  /** A game as the handlers see it: the five schema keys, each `Undefined` when absent. */
  datatype Game = Game(name: Value, year: Value, studio: Value, genre: Value, image: Value)

  // ---------------------------------------------------------------------------
  // validImg: a regular-expression search for an image extension at the end of the string
  // ---------------------------------------------------------------------------

  /** The alternatives of the group, in the order the regular expression tries them. */
  const ImageExtensions: seq<string> := ["jpeg", "jpg", "gif", "png"]

  predicate EndsWith(s: string, suffix: string)
  {
    |suffix| <= |s| && s[|s| - |suffix|..] == suffix
  }

  /** Reference definition: the string ends with one of the four image extensions, case-sensitively. */
  predicate HasImageExtension(s: string)
  {
    EndsWith(s, ".jpeg") || EndsWith(s, ".jpg") || EndsWith(s, ".gif") || EndsWith(s, ".png")
  }

  /** Alternative `alt` matches at `j` and is followed by `$` (end of input; no multiline flag). */
  predicate AltThenEnd(s: string, j: nat, alt: string)
  {
    j + |alt| <= |s| && s[j..j + |alt|] == alt && j + |alt| == |s|
  }

  /** The group `(jpeg|jpg|gif|png)$` at `j`: each alternative is tried in turn. */
  predicate GroupThenEnd(s: string, j: nat, alts: seq<string>)
    decreases |alts|
  {
    |alts| > 0 && (AltThenEnd(s, j, alts[0]) || GroupThenEnd(s, j, alts[1..]))
  }

  /** The whole pattern `\.(jpeg|jpg|gif|png)$` matches starting at index `i`. */
  predicate MatchesAt(s: string, i: nat)
  {
    i < |s| && s[i] == '.' && GroupThenEnd(s, i + 1, ImageExtensions)
  }

  /** `String.prototype.match` with a non-global pattern: the first start index, from `i` on,
      at which the pattern matches, or none (JavaScript's null). */
  function FirstMatch(s: string, i: nat): (r: Option<nat>)
    requires i <= |s|
    ensures r.Some? ==> i <= r.value < |s| && MatchesAt(s, r.value)
    ensures r.Some? ==> forall k :: i <= k < r.value ==> !MatchesAt(s, k)
    ensures r.None? ==> forall k :: i <= k <= |s| ==> !MatchesAt(s, k)
    decreases |s| - i
  {
    if MatchesAt(s, i) then Some(i)
    else if i == |s| then None
    else FirstMatch(s, i + 1)
  }

  /** validImg(url) for a string `url`. */
  predicate ValidImg(url: string)
  {
    FirstMatch(url, 0).Some?
  }

  lemma {:induction false} GroupMatchesRest(s: string, j: nat, alts: seq<string>)
    requires j <= |s|
    ensures GroupThenEnd(s, j, alts) <==> s[j..] in alts
    decreases |alts|
  {
    if |alts| > 0 {
      GroupMatchesRest(s, j, alts[1..]);
      assert alts == [alts[0]] + alts[1..];
      assert AltThenEnd(s, j, alts[0]) <==> s[j..] == alts[0];
    }
  }

  /** The pattern matches at `i` exactly when the rest of the string from `i` is a dotted extension. */
  lemma MatchesAtIsDottedExtension(s: string, i: nat)
    ensures MatchesAt(s, i) <==> i < |s| && s[i..] in [".jpeg", ".jpg", ".gif", ".png"]
  {
    if i < |s| {
      GroupMatchesRest(s, i + 1, ImageExtensions);
      var rest := s[i..];
      assert rest == [s[i]] + s[i + 1..];
      forall e: string ensures rest == ['.'] + e <==> s[i] == '.' && s[i + 1..] == e {
        if rest == ['.'] + e {
          assert rest[1..] == e;
        }
      }
      assert ".jpeg" == ['.'] + "jpeg" && ".jpg" == ['.'] + "jpg";
      assert ".gif" == ['.'] + "gif" && ".png" == ['.'] + "png";
    }
  }

  lemma EndingMatches(s: string, ext: string)
    requires ext in [".jpeg", ".jpg", ".gif", ".png"] && EndsWith(s, ext)
    ensures ValidImg(s)
  {
    var k := |s| - |ext|;
    MatchesAtIsDottedExtension(s, k);
    assert MatchesAt(s, k);
  }

  /** validImg accepts exactly the strings that end in .jpeg, .jpg, .gif or .png. */
  lemma {:induction false} ValidImgIsImageSuffix(url: string)
    ensures ValidImg(url) <==> HasImageExtension(url)
  {
    var r := FirstMatch(url, 0);
    if r.Some? {
      var k := r.value;
      MatchesAtIsDottedExtension(url, k);
      assert url[|url| - |url[k..]|..] == url[k..];
    }
    if EndsWith(url, ".jpeg") {
      EndingMatches(url, ".jpeg");
    } else if EndsWith(url, ".jpg") {
      EndingMatches(url, ".jpg");
    } else if EndsWith(url, ".gif") {
      EndingMatches(url, ".gif");
    } else if EndsWith(url, ".png") {
      EndingMatches(url, ".png");
    }
  }

  /** The match is anchored at the end and is case-sensitive. */
  lemma ValidImgExamples()
    ensures ValidImg("https://x.com/a.png")
    ensures ValidImg("b.jpeg")
    ensures !ValidImg("a.png?x=1")
    ensures !ValidImg("a.PNG")
    ensures !ValidImg("https://example.com/x.txt")
  {
    ValidImgIsImageSuffix("https://x.com/a.png");
    ValidImgIsImageSuffix("b.jpeg");
    ValidImgIsImageSuffix("a.png?x=1");
    ValidImgIsImageSuffix("a.PNG");
    ValidImgIsImageSuffix("https://example.com/x.txt");
  }

  // ---------------------------------------------------------------------------
  // The validity condition of the POST and PUT routes
  // ---------------------------------------------------------------------------

  /** What evaluating the condition does: let the game through, reject it, or throw. */
  datatype Verdict = Accepted | Rejected | Throws

  /** The five keys are all present and truthy. */
  predicate FieldsPresent(g: Game)
  {
    Truthy(g.name) && Truthy(g.year) && Truthy(g.studio) && Truthy(g.genre) && Truthy(g.image)
  }

  /** The checks before validImg pass: every key present, year a number, image not refused by isUri. */
  predicate PassesUriCheck(lib: Libraries, g: Game)
  {
    FieldsPresent(g) && !lib.isNaN(g.year) && lib.isUri(g.image) != Bool(false)
  }

  /** Reference definition of a valid game: the conjunction of all checks, in any order. */
  predicate WellFormed(lib: Libraries, g: Game)
  {
    && FieldsPresent(g)
    && !lib.isNaN(g.year)
    && lib.isUri(g.image) != Bool(false)
    && g.image.Str?
    && HasImageExtension(g.image.s)
  }

  /** The short-circuit `||` chain guarding the 400 reply. For a candidate that reaches validImg
      with an image that is not a string, `url.match` is not a function and the handler throws. */
  function CheckGame(lib: Libraries, game: Option<Game>): (v: Verdict)
    ensures v == Accepted <==> game.Some? && WellFormed(lib, game.value)
    ensures v == Throws <==> game.Some? && PassesUriCheck(lib, game.value) && !game.value.image.Str?
    ensures game.Some? && !FieldsPresent(game.value) ==> v == Rejected
    ensures game.Some? && game.value.image.Str? && !HasImageExtension(game.value.image.s) ==> v == Rejected
  {
    if game.None? then Rejected
    else
      var g := game.value;
      if !Truthy(g.name) || !Truthy(g.year) || lib.isNaN(g.year) || !Truthy(g.studio)
         || !Truthy(g.genre) || !Truthy(g.image) || lib.isUri(g.image) == Bool(false)
      then Rejected
      else if !g.image.Str? then Throws
      else
        ValidImgIsImageSuffix(g.image.s);
        if !ValidImg(g.image.s) then Rejected else Accepted
  }

  /** The candidate {name: "A", year: 2020, studio: "S", genre: "G", image: "https://x.com/a.png"}
      is accepted whenever the libraries call its year a number and do not return false for its image. */
  lemma ExampleGameAccepted(lib: Libraries)
    requires !lib.isNaN(Num(2020.0))
    requires lib.isUri(Str("https://x.com/a.png")) != Bool(false)
    ensures CheckGame(lib, Some(Game(Str("A"), Num(2020.0), Str("S"), Str("G"), Str("https://x.com/a.png")))) == Accepted
  {
    ValidImgIsImageSuffix("https://x.com/a.png");
  }
}
