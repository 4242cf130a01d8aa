/**
 * The display form of a user name (app/static/js/index.js,
 * `formatUserName`): split at '-', upper-case the first character of each
 * part, keep the first two parts, and join them with one space. Generated
 * names have the shape "adjective-noun-1234", so the digits are dropped.
 */
module UserName {

  /** `String.prototype.split` on a one-character separator: the pieces between separators, always at least one. */
  function Split(s: string, sep: char): (parts: seq<string>)
    ensures |parts| >= 1
  {
    if |s| == 0 then [""]
    else
      var rest := Split(s[1..], sep);
      if s[0] == sep then [""] + rest else [[s[0]] + rest[0]] + rest[1..]
  }

  /** `Array.prototype.join`: the parts with `sep` between neighbours. */
  function Join(parts: seq<string>, sep: string): string
  {
    if |parts| == 0 then ""
    else if |parts| == 1 then parts[0]
    else parts[0] + sep + Join(parts[1..], sep)
  }

  /** Joining the pieces with the separator gives the string back. */
  lemma {:induction false} SplitJoin(s: string, sep: char)
    ensures Join(Split(s, sep), [sep]) == s
  {
    if |s| > 0 {
      var rest := Split(s[1..], sep);
      SplitJoin(s[1..], sep);
      if s[0] == sep {
        assert Split(s, sep) == [""] + rest;
        assert (([""] + rest)[1..]) == rest;
      } else {
        var parts := Split(s, sep);
        assert parts[1..] == rest[1..];
        if |rest| == 1 {
          assert parts == [[s[0]] + rest[0]];
        } else {
          assert rest == [rest[0]] + rest[1..];
          assert Join(rest, [sep]) == rest[0] + [sep] + Join(rest[1..], [sep]);
        }
      }
    }
  }

  /** No piece contains the separator. */
  lemma {:induction false} SplitPieces(s: string, sep: char)
    ensures forall i :: 0 <= i < |Split(s, sep)| ==> sep !in Split(s, sep)[i]
  {
    if |s| > 0 {
      SplitPieces(s[1..], sep);
      var rest := Split(s[1..], sep);
      var parts := Split(s, sep);
      if s[0] != sep {
        forall i | 0 <= i < |parts|
          ensures sep !in parts[i]
        {
          if i == 0 {
            assert parts[0] == [s[0]] + rest[0];
          } else {
            assert parts[i] == rest[i];
          }
        }
      } else {
        forall i | 0 <= i < |parts|
          ensures sep !in parts[i]
        {
          if i > 0 {
            assert parts[i] == rest[i - 1];
          }
        }
      }
    }
  }

  /** A string without the separator is one piece. */
  lemma {:induction false} SplitWhole(s: string, sep: char)
    requires sep !in s
    ensures Split(s, sep) == [s]
  {
    if |s| > 0 {
      assert sep !in s[1..] by {
        forall k | 0 <= k < |s| - 1
          ensures s[1..][k] != sep
        {
          assert s[1..][k] == s[k + 1];
        }
      }
      SplitWhole(s[1..], sep);
      assert [s[0]] + s[1..] == s;
    }
  }

  /** `toUpperCase` on one character: ASCII letters a-z move to A-Z, everything else stays. */
  function Upper(c: char): char
  {
    if 'a' <= c <= 'z' then (c as int - 32) as char else c
  }

  /** `word.charAt(0).toUpperCase() + word.slice(1)`. */
  function Capitalize(word: string): (r: string)
    ensures |r| == |word|
    ensures |word| > 0 ==> r[0] == Upper(word[0]) && r[1..] == word[1..]
  {
    if |word| == 0 then "" else [Upper(word[0])] + word[1..]
  }

  /** Capitalising every part. */
  function CapitalizeAll(words: seq<string>): (r: seq<string>)
    ensures |r| == |words|
    ensures forall i :: 0 <= i < |words| ==> r[i] == Capitalize(words[i])
  {
    if |words| == 0 then [] else [Capitalize(words[0])] + CapitalizeAll(words[1..])
  }

  /** `formatUserName`: "Anonymous" for an empty name; otherwise the first two parts, capitalised, joined by a space. */
  function FormatUserName(name: string): (r: string)
    ensures name == "" ==> r == "Anonymous"
    ensures name != "" && '-' !in name ==> r == Capitalize(name)
  {
    if name == "" then "Anonymous"
    else if '-' !in name then
      SplitWhole(name, '-');
      var words := CapitalizeAll(Split(name, '-'));
      Join(words[..if |words| < 2 then |words| else 2], " ")
    else
      var words := CapitalizeAll(Split(name, '-'));
      Join(words[..if |words| < 2 then |words| else 2], " ")
  }

  /** The result, spelled out: the first part capitalised, then a space and the second part capitalised when there is one. */
  lemma FormatShape(name: string)
    requires name != ""
    ensures var parts := Split(name, '-');
      FormatUserName(name) ==
        if |parts| == 1 then Capitalize(parts[0])
        else Capitalize(parts[0]) + " " + Capitalize(parts[1])
  {
    var parts := Split(name, '-');
    var words := CapitalizeAll(parts);
    if |words| >= 2 {
      var two := words[..2];
      assert two == [words[0], words[1]];
      assert two[1..] == [words[1]];
      assert Join(two, " ") == words[0] + " " + Join([words[1]], " ");
    } else {
      assert words[..1] == [words[0]];
    }
  }

  /** Only the empty name and the two spellings of the word itself are shown as "Anonymous". */
  lemma AnonymousNames(name: string)
    ensures FormatUserName(name) == "Anonymous" <==> name == "" || name == "Anonymous" || name == "anonymous"
  {
    if name != "" {
      var parts := Split(name, '-');
      if |parts| == 1 {
        SplitJoin(name, '-');
        SplitPieces(name, '-');
        assert '-' !in parts[0];
        SingleWordAnonymous(name);
      } else {
        TwoPartsHaveSpace(name);
        assert ' ' !in "Anonymous";
        assert '-' !in "Anonymous" && '-' !in "anonymous";
        if name == "Anonymous" || name == "anonymous" {
          SplitWhole(name, '-');
          assert false;
        }
      }
    }
  }

  /** A one-word name is shown as "Anonymous" only when it is that word, capitalised or not. */
  lemma SingleWordAnonymous(name: string)
    requires name != "" && '-' !in name
    ensures FormatUserName(name) == "Anonymous" <==> name == "Anonymous" || name == "anonymous"
  {
    FormatSingleWord(name);
    var r := [Upper(name[0])] + name[1..];
    if r == "Anonymous" {
      assert name[1..] == r[1..] == "nonymous";
      assert Upper(name[0]) == 'A';
      assert name == [name[0]] + "nonymous";
    }
    if name == "Anonymous" || name == "anonymous" {
      assert name[1..] == "nonymous";
      assert Upper(name[0]) == 'A';
    }
  }

  /** A name with a '-' is shown with a space in it. */
  lemma TwoPartsHaveSpace(name: string)
    requires name != "" && |Split(name, '-')| >= 2
    ensures ' ' in FormatUserName(name)
  {
    FormatShape(name);
    var parts := Split(name, '-');
    var first := Capitalize(parts[0]);
    assert FormatUserName(name)[|first|] == ' ';
  }

  /** Capitalising never creates a '-'. */
  lemma CapitalizeNoDash(word: string)
    requires '-' !in word
    ensures '-' !in Capitalize(word)
  {
    if |word| > 0 {
      assert word[0] in word;
      var r := Capitalize(word);
      forall k | 0 <= k < |r|
        ensures r[k] != '-'
      {
        if k > 0 {
          assert r[k] == word[1..][k - 1] == word[k];
        }
      }
    }
  }

  /** A formatted non-empty name contains no '-'. */
  lemma FormatNoDash(name: string)
    requires name != ""
    ensures '-' !in FormatUserName(name)
  {
    var parts := Split(name, '-');
    FormatShape(name);
    SplitPieces(name, '-');
    CapitalizeNoDash(parts[0]);
    if |parts| > 1 {
      CapitalizeNoDash(parts[1]);
    }
  }

  /** A name without '-' comes back with only its first character upper-cased. */
  lemma FormatSingleWord(name: string)
    requires name != "" && '-' !in name
    ensures FormatUserName(name) == [Upper(name[0])] + name[1..]
  {
    SplitWhole(name, '-');
    FormatShape(name);
  }

  /**
   * A generated name "first-second-digits", with words free of '-', is shown
   * as the two words capitalised and the digits dropped.
   */
  lemma FormatGeneratedName(first: string, second: string, digits: string)
    requires '-' !in first && '-' !in second && '-' !in digits
    ensures FormatUserName(first + "-" + second + "-" + digits) == Capitalize(first) + " " + Capitalize(second)
  {
    var name := first + "-" + second + "-" + digits;
    SplitAt(second + "-" + digits, second, digits);
    assert second + "-" + digits == second + ['-'] + digits;
    SplitAt(name, first, second + "-" + digits);
    SplitWhole(digits, '-');
    FormatShape(name);
  }

  /** Splitting `a + sep + b` with `a` free of the separator: `a`, then the pieces of `b`. */
  lemma {:induction false} SplitAt(s: string, a: string, b: string)
    requires s == a + "-" + b && '-' !in a
    ensures Split(s, '-') == [a] + Split(b, '-')
  {
    if |a| == 0 {
      assert s[0] == '-' && s[1..] == b;
    } else {
      assert s[0] == a[0] && s[1..] == a[1..] + "-" + b;
      assert '-' !in a[1..] by {
        forall k | 0 <= k < |a| - 1
          ensures a[1..][k] != '-'
        {
          assert a[1..][k] == a[k + 1];
        }
      }
      SplitAt(s[1..], a[1..], b);
      assert [a[0]] + a[1..] == a;
    }
  }
}
