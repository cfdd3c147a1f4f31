// src/database/DatabaseSearchService.cpp: the LIKE pattern and the FTS5 phrase built from a search
// token, and what the two query languages make of them.

module DatabaseSearch {
  import opened Outcomes

  // QString::replace(QChar, QString)
  function Replace(text: string, target: char, replacement: string): string
  {
    if text == [] then []
    else (if text[0] == target then replacement else [text[0]]) + Replace(text[1..], target, replacement)
  }

  function Escaped(token: string): string
  {
    var backslashes := Replace(token, '\\', "\\\\");
    var percents := Replace(backslashes, '%', "\\%");
    Replace(percents, '_', "\\_")
  }

  function LikePattern(token: string): string
  {
    "%" + Escaped(token) + "%"
  }

  // text LIKE pattern ESCAPE '\'. SQLite compares ordinary characters after folding them (ASCII case
  // by default); the folding is a parameter.
  ghost predicate Like(fold: char -> char, pattern: string, text: string)
    decreases |pattern|, |text|
  {
    if pattern == [] then
      text == []
    else if pattern[0] == '%' then
      Like(fold, pattern[1..], text) || (text != [] && Like(fold, pattern, text[1..]))
    else if pattern[0] == '\\' then
      |pattern| >= 2 && text != [] && fold(pattern[1]) == fold(text[0]) && Like(fold, pattern[2..], text[1..])
    else if pattern[0] == '_' then
      text != [] && Like(fold, pattern[1..], text[1..])
    else
      text != [] && fold(pattern[0]) == fold(text[0]) && Like(fold, pattern[1..], text[1..])
  }

  ghost predicate OccursAt(fold: char -> char, token: string, text: string, i: nat)
  {
    i + |token| <= |text| && forall k :: 0 <= k < |token| ==> fold(token[k]) == fold(text[i + k])
  }

  predicate IsSpecial(c: char)
  {
    c == '\\' || c == '%' || c == '_'
  }

  // The single-pass escape: a backslash before every special character, nothing else changed.
  function EscapeOnce(token: string): string
  {
    if token == [] then []
    else (if IsSpecial(token[0]) then ['\\', token[0]] else [token[0]]) + EscapeOnce(token[1..])
  }

  lemma {:induction false} ReplaceAppend(a: string, b: string, target: char, replacement: string)
    ensures Replace(a + b, target, replacement) == Replace(a, target, replacement) + Replace(b, target, replacement)
  {
    if a == [] {
      assert a + b == b;
    } else {
      ReplaceAppend(a[1..], b, target, replacement);
      assert (a + b)[1..] == a[1..] + b;
    }
  }

  // The three passes do not escape each other's output.
  lemma {:induction false} PassesEqualOneEscape(token: string)
    ensures Escaped(token) == EscapeOnce(token)
  {
    if token == [] {
    } else {
      var c, rest := token[0], token[1..];
      var first := if c == '\\' then "\\\\" else [c];
      var second := Replace(first, '%', "\\%");
      var rest1 := Replace(rest, '\\', "\\\\");
      ReplaceAppend(first, rest1, '%', "\\%");
      ReplaceAppend(second, Replace(rest1, '%', "\\%"), '_', "\\_");
      PassesEqualOneEscape(rest);
      assert Replace([], '%', "\\%") == [] && Replace([], '_', "\\_") == [];
      assert Replace([c], '%', "\\%") == if c == '%' then "\\%" else [c];
      assert Replace([c], '_', "\\_") == if c == '_' then "\\_" else [c];
      assert "\\\\"[1..] == ['\\'] && "\\%"[1..] == ['%'];
      assert Replace(['\\'], '%', "\\%") == ['\\'] && Replace(['\\'], '_', "\\_") == ['\\'];
      assert Replace("\\\\", '%', "\\%") == "\\\\" && Replace("\\\\", '_', "\\_") == "\\\\";
      assert Replace("\\%", '_', "\\_") == "\\%";
      assert Replace(second, '_', "\\_") == if IsSpecial(c) then ['\\', c] else [c];
    }
  }

  lemma {:induction false} PercentMatchesAnything(fold: char -> char, text: string)
    ensures Like(fold, "%", text)
  {
    if text == [] {
      assert Like(fold, "%"[1..], text);
    } else {
      PercentMatchesAnything(fold, text[1..]);
    }
  }

  lemma {:induction false} EscapedTokenIsAPrefix(fold: char -> char, token: string, text: string)
    ensures Like(fold, EscapeOnce(token) + "%", text) <==> OccursAt(fold, token, text, 0)
  {
    var pattern := EscapeOnce(token) + "%";
    if token == [] {
      assert pattern == "%";
      PercentMatchesAnything(fold, text);
    } else {
      var rest := EscapeOnce(token[1..]) + "%";
      assert pattern == (if IsSpecial(token[0]) then ['\\', token[0]] else [token[0]]) + rest;
      if text != [] {
        EscapedTokenIsAPrefix(fold, token[1..], text[1..]);
        if IsSpecial(token[0]) {
          assert pattern[2..] == rest;
        } else {
          assert pattern[1..] == rest;
        }
        if OccursAt(fold, token[1..], text[1..], 0) && fold(token[0]) == fold(text[0]) {
          forall k | 0 <= k < |token| ensures fold(token[k]) == fold(text[k]) {
            if k > 0 {
              assert token[k] == token[1..][k - 1] && text[k] == text[1..][k - 1];
            }
          }
        }
      }
    }
  }

  // A search token matches a column exactly when it occurs in it as a contiguous substring.
  lemma {:induction false} LikePatternIsSubstringSearch(fold: char -> char, token: string, text: string)
    ensures Like(fold, LikePattern(token), text) <==> exists i: nat :: OccursAt(fold, token, text, i)
  {
    PassesEqualOneEscape(token);
    var pattern := LikePattern(token);
    assert pattern[1..] == EscapeOnce(token) + "%";
    EscapedTokenIsAPrefix(fold, token, text);
    if text != [] {
      LikePatternIsSubstringSearch(fold, token, text[1..]);
      forall i: nat {:trigger OccursAt(fold, token, text[1..], i)} | OccursAt(fold, token, text[1..], i)
        ensures OccursAt(fold, token, text, i + 1)
      {
        assert forall k :: 0 <= k < |token| ==> fold(token[k]) == fold(text[1..][i + k]);
      }
      forall i: nat | i > 0 && OccursAt(fold, token, text, i)
        ensures OccursAt(fold, token, text[1..], i - 1)
      {
        assert forall k :: 0 <= k < |token| ==> fold(token[k]) == fold(text[i + k]);
      }
    }
  }

  function FtsPhrase(token: string): string
  {
    "\"" + Replace(token, '"', "\"\"") + "\""
  }

  // The inside of an FTS5 string literal, up to and including its closing quote: the string it denotes
  // and what follows.
  function ParseFtsBody(text: string): Option<(string, string)>
  {
    if text == [] then None
    else if text[0] != '"' then
      match ParseFtsBody(text[1..])
      case None => None
      case Some(parsed) => Some(([text[0]] + parsed.0, parsed.1))
    else if |text| >= 2 && text[1] == '"' then
      match ParseFtsBody(text[2..])
      case None => None
      case Some(parsed) => Some((['"'] + parsed.0, parsed.1))
    else Some(([], text[1..]))
  }

  lemma {:induction false} PhraseBodyParses(token: string, rest: string)
    requires rest == [] || rest[0] != '"'
    ensures ParseFtsBody(Replace(token, '"', "\"\"") + "\"" + rest) == Some((token, rest))
  {
    var text := Replace(token, '"', "\"\"") + "\"" + rest;
    if token == [] {
      assert text == "\"" + rest;
      assert text[1..] == rest;
    } else {
      var inner := Replace(token[1..], '"', "\"\"") + "\"" + rest;
      PhraseBodyParses(token[1..], rest);
      if token[0] == '"' {
        assert text[2..] == inner;
      } else {
        assert text[1..] == inner;
      }
      assert token == [token[0]] + token[1..];
    }
  }

  // phrases.join(' ')
  function MatchExpression(tokens: seq<string>): string
  {
    if tokens == [] then []
    else if |tokens| == 1 then FtsPhrase(tokens[0])
    else FtsPhrase(tokens[0]) + " " + MatchExpression(tokens[1..])
  }

  function ParseMatchExpression(text: string): Option<seq<string>>
    decreases |text|
  {
    if text == [] then Some([])
    else if text[0] != '"' then None
    else
      match ParseFtsBody(text[1..])
      case None => None
      case Some(parsed) =>
        if parsed.1 == [] then Some([parsed.0])
        else if parsed.1[0] != ' ' || |parsed.1| >= |text| then None
        else
          match ParseMatchExpression(parsed.1[1..])
          case None => None
          case Some(more) => Some([parsed.0] + more)
  }

  // Whatever quotes the tokens contain, the joined expression is read as those tokens in that order.
  lemma {:induction false} MatchExpressionParses(tokens: seq<string>)
    ensures ParseMatchExpression(MatchExpression(tokens)) == Some(tokens)
  {
    if tokens == [] {
    } else {
      var text := MatchExpression(tokens);
      var rest := if |tokens| == 1 then "" else " " + MatchExpression(tokens[1..]);
      assert text[1..] == Replace(tokens[0], '"', "\"\"") + "\"" + rest;
      PhraseBodyParses(tokens[0], rest);
      if |tokens| == 1 {
        assert tokens == [tokens[0]];
      } else {
        MatchExpressionParses(tokens[1..]);
        assert rest[1..] == MatchExpression(tokens[1..]);
        assert tokens == [tokens[0]] + tokens[1..];
      }
    }
  }
}
