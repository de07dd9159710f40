/** The punctuation table of src/token.rs (the items the `tokens!` invocation
    generates), written as data: each single-character kind with its character,
    each two- and three-character operator with its components and display string. */
module PunctTable {
  import opened Tokens

  /** `char::from(PunctKind)`: the character of a kind. */
  function KindChar(k: PunctKind): char
  {
    match k
    case Bang => '!'
    case Colon => ':'
    case Equal => '='
    case SemiColon => ';'
    case LAngle => '<'
    case RAngle => '>'
    case Plus => '+'
    case Dash => '-'
    case Asterisk => '*'
    case Slash => '/'
    case Percent => '%'
    case Dot => '.'
    case Comma => ','
    case LeftParen => '('
    case RightParen => ')'
    case LeftBracket => '['
    case RightBracket => ']'
    case LeftBrace => '{'
    case RightBrace => '}'
    case At => '@'
    case Caret => '^'
    case BackTick => '`'
    case Pipe => '|'
    case Ampersand => '&'
    case Tilde => '~'
    case Tilde2 => '¬'
    case Backslash => '\\'
    case Question => '?'
    case Hash => '#'
    case Pound => '£'
    case Dollar => '$'
    case Space => ' '
    case UnderScore => '_'
    case NewLine => '\n'
  }

  /** The characters the table lists, in increasing order of code point, as a list
      and as a set; space, underscore and newline included. */
  const PunctCharList: seq<char> := LowPunctChars + HighPunctChars

  const LowPunctChars: seq<char> :=
    ['\n', ' ', '!', '#', '$', '%', '&', '(', ')', '*', '+', ',', '-', '.', '/', ':', ';']

  const HighPunctChars: seq<char> :=
    ['<', '=', '>', '?', '@', '[', '\\', ']', '^', '_', '`', '{', '|', '}', '~', '£', '¬']

  const PunctChars: set<char> := set c | c in PunctCharList

  /** `PunctKind::try_from(char)`: the kind of a table character, or the character back as the error. */
  function PunctKindFromChar(c: char): (r: KindOrChar)
    ensures r.NotPunct? ==> r.c == c
  {
    match c
    case '!' => Kind(Bang)
    case ':' => Kind(Colon)
    case '=' => Kind(Equal)
    case ';' => Kind(SemiColon)
    case '<' => Kind(LAngle)
    case '>' => Kind(RAngle)
    case '+' => Kind(Plus)
    case '-' => Kind(Dash)
    case '*' => Kind(Asterisk)
    case '/' => Kind(Slash)
    case '%' => Kind(Percent)
    case '.' => Kind(Dot)
    case ',' => Kind(Comma)
    case '(' => Kind(LeftParen)
    case ')' => Kind(RightParen)
    case '[' => Kind(LeftBracket)
    case ']' => Kind(RightBracket)
    case '{' => Kind(LeftBrace)
    case '}' => Kind(RightBrace)
    case '@' => Kind(At)
    case '^' => Kind(Caret)
    case '`' => Kind(BackTick)
    case '|' => Kind(Pipe)
    case '&' => Kind(Ampersand)
    case '~' => Kind(Tilde)
    case '¬' => Kind(Tilde2)
    case '\\' => Kind(Backslash)
    case '?' => Kind(Question)
    case '#' => Kind(Hash)
    case '£' => Kind(Pound)
    case '$' => Kind(Dollar)
    case ' ' => Kind(Space)
    case '_' => Kind(UnderScore)
    case '\n' => Kind(NewLine)
    case _ => NotPunct(c)
  }

  /** The result of `PunctKind::try_from`: the kind, or the rejected character. */
  datatype KindOrChar = Kind(kind: PunctKind) | NotPunct(c: char)

  /** `Spacing::from(char)`: the spacing of a punct given the character after it. */
  function SpacingFromChar(next: char): Spacing
  {
    if PunctKindFromChar(next).Kind? then Joint else Alone
  }

  /** try_from succeeds exactly on the 34 table characters. */
  lemma TryFromSucceedsExactlyOnTable(c: char)
    ensures PunctKindFromChar(c).Kind? <==> c in PunctChars
  {
    if PunctKindFromChar(c).Kind? {
      TryFromRoundTrip(c);
      KindCharInTable(PunctKindFromChar(c).kind);
    }
    if c in PunctChars {
      assert c in LowPunctChars || c in HighPunctChars;
      if c in LowPunctChars {
        LowCharsArePunct(c);
      } else {
        HighCharsArePunct(c);
      }
    }
  }

  lemma LowCharsArePunct(c: char)
    requires c in LowPunctChars
    ensures PunctKindFromChar(c).Kind?
  {
  }

  lemma HighCharsArePunct(c: char)
    requires c in HighPunctChars
    ensures PunctKindFromChar(c).Kind?
  {
  }

  /** The table has 34 distinct characters. */
  lemma TableHasThirtyFourChars()
    ensures |PunctChars| == 34
  {
    assert Increasing(PunctCharList);
    DistinctCharsCount(PunctCharList);
  }

  /** Entry `i` is below entry `i + 1`. */
  predicate RisesAt(s: seq<char>, i: nat)
  {
    i + 1 < |s| && s[i] < s[i + 1]
  }

  predicate Increasing(s: seq<char>)
  {
    forall i: nat | i < |s| - 1 :: RisesAt(s, i)
  }

  /** A strictly increasing sequence has as many distinct characters as entries,
      and starts with the least of them. */
  lemma {:induction false} DistinctCharsCount(s: seq<char>)
    requires Increasing(s)
    ensures |set c | c in s| == |s|
    ensures forall c | c in s :: s[0] <= c
  {
    if s != [] {
      var rest := s[1..];
      forall i: nat | i < |rest| - 1
        ensures RisesAt(rest, i)
      {
        assert RisesAt(s, i + 1);
      }
      DistinctCharsCount(rest);
      assert s == [s[0]] + rest;
      if rest != [] {
        assert RisesAt(s, 0);
      }
      assert s[0] !in rest;
      assert (set c | c in s) == (set c | c in rest) + {s[0]};
    }
  }

  /** try_from inverts `char::from`: every kind is found again from its character ... */
  lemma KindCharRoundTrip(k: PunctKind)
    ensures PunctKindFromChar(KindChar(k)) == Kind(k)
  {
    if KindChar(k) <= ';' {
      LowKindsRoundTrip(k);
    } else {
      HighKindsRoundTrip(k);
    }
  }

  lemma LowKindsRoundTrip(k: PunctKind)
    requires KindChar(k) <= ';'
    ensures PunctKindFromChar(KindChar(k)) == Kind(k)
  {
  }

  lemma HighKindsRoundTrip(k: PunctKind)
    requires KindChar(k) > ';'
    ensures PunctKindFromChar(KindChar(k)) == Kind(k)
  {
  }

  /** ... and a character that try_from accepts is the character of the kind it yields. */
  lemma TryFromRoundTrip(c: char)
    requires PunctKindFromChar(c).Kind?
    ensures KindChar(PunctKindFromChar(c).kind) == c
  {
  }

  /** Distinct kinds have distinct characters. */
  lemma KindCharInjective(k: PunctKind, k': PunctKind)
    requires KindChar(k) == KindChar(k')
    ensures k == k'
  {
    KindCharRoundTrip(k);
    KindCharRoundTrip(k');
  }

  /** Every kind's character is in the table. */
  lemma KindCharInTable(k: PunctKind)
    ensures KindChar(k) in PunctChars
  {
    if KindChar(k) <= ';' {
      LowKindsInTable(k);
    } else {
      HighKindsInTable(k);
    }
  }

  lemma LowKindsInTable(k: PunctKind)
    requires KindChar(k) <= ';'
    ensures KindChar(k) in LowPunctChars
  {
  }

  lemma HighKindsInTable(k: PunctKind)
    requires KindChar(k) > ';'
    ensures KindChar(k) in HighPunctChars
  {
  }

  /** Joint exactly when the next character is punctuation. */
  lemma SpacingIsJointIffPunct(next: char)
    ensures SpacingFromChar(next) == Joint <==> next in PunctChars
  {
    TryFromSucceedsExactlyOnTable(next);
  }

  /** In particular a space, an underscore or a newline after a punct makes it
      Joint, while a letter or a tab makes it Alone. */
  lemma SeparatorsAreJoint()
    ensures SpacingFromChar(' ') == Joint && SpacingFromChar('\n') == Joint && SpacingFromChar('_') == Joint
    ensures SpacingFromChar('a') == Alone && SpacingFromChar('\t') == Alone
  {
  }

  // ---------------------------------------------------------------------------
  // Two- and three-character operators.

  datatype Composite2 =
    | BangEqual | GreaterEqual | LessEqual | PlusEqual | DashEqual | AsteriskEqual | SlashEqual
    | PercentEqual | LAngleLAngle | RAngleRAngle | LThinArrow | RThinArrow | FatArrow
    | SlashSlash | ColonColon | HashHash | LogicalAnd | LogicalOr

  datatype Composite3 = HashHashHash | SlashSlashEqual | LAngleLAngleEqual | RAngleRAngleEqual | ColonColonEqual

  /** The two component kinds of a two-character operator, in order. */
  function Components2(c: Composite2): (PunctKind, PunctKind)
  {
    match c
    case BangEqual => (Bang, Equal)
    case GreaterEqual => (RAngle, Equal)
    case LessEqual => (LAngle, Equal)
    case PlusEqual => (Plus, Equal)
    case DashEqual => (Dash, Equal)
    case AsteriskEqual => (Asterisk, Equal)
    case SlashEqual => (Slash, Equal)
    case PercentEqual => (Percent, Equal)
    case LAngleLAngle => (LAngle, LAngle)
    case RAngleRAngle => (RAngle, RAngle)
    case LThinArrow => (LAngle, Dash)
    case RThinArrow => (Dash, RAngle)
    case FatArrow => (Equal, RAngle)
    case SlashSlash => (Slash, Slash)
    case ColonColon => (Colon, Colon)
    case HashHash => (Hash, Hash)
    case LogicalAnd => (Ampersand, Ampersand)
    case LogicalOr => (Pipe, Pipe)
  }

  /** The display string the table gives a two-character operator. */
  function Name2(c: Composite2): string
  {
    match c
    case BangEqual => "!="
    case GreaterEqual => ">="
    case LessEqual => "<="
    case PlusEqual => "+="
    case DashEqual => "-="
    case AsteriskEqual => "*="
    case SlashEqual => "/="
    case PercentEqual => "%="
    case LAngleLAngle => "<<"
    case RAngleRAngle => ">>"
    case LThinArrow => "<-"
    case RThinArrow => "->"
    case FatArrow => "=>"
    case SlashSlash => "//"
    case ColonColon => "::"
    case HashHash => "##"
    case LogicalAnd => "&&"
    case LogicalOr => "||"
  }

  /** The three component kinds of a three-character operator, in order. */
  function Components3(c: Composite3): (PunctKind, PunctKind, PunctKind)
  {
    match c
    case HashHashHash => (Hash, Hash, Hash)
    case SlashSlashEqual => (Slash, Slash, Equal)
    case LAngleLAngleEqual => (LAngle, LAngle, Equal)
    case RAngleRAngleEqual => (RAngle, RAngle, Equal)
    case ColonColonEqual => (Colon, Colon, Equal)
  }

  function Name3(c: Composite3): string
  {
    match c
    case HashHashHash => "###"
    case SlashSlashEqual => "//="
    case LAngleLAngleEqual => "<<="
    case RAngleRAngleEqual => ">>="
    case ColonColonEqual => "::="
  }

  /** Each operator's display string spells its components' characters. */
  lemma NamesSpellComponents(c2: Composite2, c3: Composite3)
    ensures Name2(c2) == [KindChar(Components2(c2).0), KindChar(Components2(c2).1)]
    ensures Name3(c3) == [KindChar(Components3(c3).0), KindChar(Components3(c3).1), KindChar(Components3(c3).2)]
  {
  }

  /** Different operators have different display strings. */
  lemma NamesAreDistinct(a: Composite2, b: Composite2, x: Composite3, y: Composite3)
    ensures Name2(a) == Name2(b) ==> a == b
    ensures Name3(x) == Name3(y) ==> x == y
  {
  }
}
