/** The prompt texts of the two one-shot creative workflows.

    Tone, length and genre come from fixed select boxes, so they are
    enumerations here; the prompt uses each label lower-cased (Python's
    str.lower, which on these ASCII labels is ASCII lower-casing). Next to
    each builder is a parser that reads the choices back out of a prompt,
    and round-trip lemmas show that the stored prompt text determines the
    choices that produced it. */
module Prompts {
  import opened Rows

  datatype Tone = Formal | Casual | Humorous
  datatype Length = Short | Medium | Long
  datatype Genre = Fantasy | Mystery | SciFi

  /** The select-box labels. */
  function ToneLabel(t: Tone): string
  {
    match t
    case Formal => "Formal"
    case Casual => "Casual"
    case Humorous => "Humorous"
  }

  function LengthLabel(l: Length): string
  {
    match l
    case Short => "Short"
    case Medium => "Medium"
    case Long => "Long"
  }

  function GenreLabel(g: Genre): string
  {
    match g
    case Fantasy => "Fantasy"
    case Mystery => "Mystery"
    case SciFi => "Sci-Fi"
  }

  /** The lower-case spellings the prompts use. */
  function ToneWord(t: Tone): string
  {
    match t
    case Formal => "formal"
    case Casual => "casual"
    case Humorous => "humorous"
  }

  function LengthWord(l: Length): string
  {
    match l
    case Short => "short"
    case Medium => "medium"
    case Long => "long"
  }

  function GenreWord(g: Genre): string
  {
    match g
    case Fantasy => "fantasy"
    case Mystery => "mystery"
    case SciFi => "sci-fi"
  }

  function LowerChar(c: char): char
  {
    if 'A' <= c <= 'Z' then (c as int + 32) as char else c
  }

  /** ASCII lower-casing, character by character. */
  function Lower(s: string): (r: string)
  {
    seq(|s|, i requires 0 <= i < |s| => LowerChar(s[i]))
  }

  /** Each spelling is what .lower() makes of the select-box label. */
  lemma ToneWordIsLowered(t: Tone)
    ensures Lower(ToneLabel(t)) == ToneWord(t)
  {
  }

  lemma LengthWordIsLowered(l: Length)
    ensures Lower(LengthLabel(l)) == LengthWord(l)
  {
  }

  lemma GenreWordIsLowered(g: Genre)
    ensures Lower(GenreLabel(g)) == GenreWord(g)
  {
  }

  // ---------------------------------------------------------------------
  // Posts

  /** f"Create a {tone.lower()} post about {topic}. The length should be
      {length.lower()}.", with ToneWord and LengthWord as the lowered labels. */
  function PostPrompt(topic: string, tone: Tone, length: Length): string
  {
    PostHead(tone) + topic + PostTail(length)
  }

  /** The part of a post prompt before the topic. */
  function PostHead(tone: Tone): string
  {
    "Create a " + ToneWord(tone) + " post about "
  }

  /** The part of a post prompt after the topic. */
  function PostTail(length: Length): string
  {
    ". The length should be " + LengthWord(length) + "."
  }

  predicate EndsWith(s: string, suffix: string)
  {
    |suffix| <= |s| && s[|s| - |suffix|..] == suffix
  }

  /** The tone whose head the text starts with, trying the tones in order. */
  function PostTone(s: string): Option<Tone>
  {
    if PostHead(Formal) <= s then Some(Formal)
    else if PostHead(Casual) <= s then Some(Casual)
    else if PostHead(Humorous) <= s then Some(Humorous)
    else None
  }

  /** The length whose tail the text ends with, trying the lengths in order. */
  function PostLength(s: string): Option<Length>
  {
    if EndsWith(s, PostTail(Short)) then Some(Short)
    else if EndsWith(s, PostTail(Medium)) then Some(Medium)
    else if EndsWith(s, PostTail(Long)) then Some(Long)
    else None
  }

  /** Reads topic, tone and length back out of a post prompt. */
  function ParsePostPrompt(s: string): Option<(string, Tone, Length)>
  {
    var tone := PostTone(s);
    var length := PostLength(s);
    if tone.None? || length.None? then None
    else if |PostHead(tone.value)| + |PostTail(length.value)| > |s| then None
    else Some((s[|PostHead(tone.value)| .. |s| - |PostTail(length.value)|], tone.value, length.value))
  }

  /** Character 9 of a post head is the first letter of the tone word. */
  lemma PostHeadLetter(tone: Tone)
    ensures |PostHead(tone)| > 9
    ensures PostHead(tone)[9] == match tone case Formal => 'f' case Casual => 'c' case Humorous => 'h'
  {
    
  }

  /** The second-to-last character of a post tail is the last letter of the
      length word. */
  lemma PostTailLetter(length: Length)
    ensures |PostTail(length)| >= 2
    ensures PostTail(length)[|PostTail(length)| - 2] == match length case Short => 't' case Medium => 'm' case Long => 'g'
  {
    
  }

  lemma PostToneOf(s: string, tone: Tone, rest: string)
    requires s == PostHead(tone) + rest
    ensures PostTone(s) == Some(tone)
  {
    assert s[..|PostHead(tone)|] == PostHead(tone);
    PostHeadLetter(tone);
    assert s[9] == PostHead(tone)[9];
    forall t: Tone | t != tone ensures !(PostHead(t) <= s) {
      PostHeadLetter(t);
    }
  }

  lemma PostLengthOf(s: string, rest: string, length: Length)
    requires s == rest + PostTail(length)
    ensures PostLength(s) == Some(length)
  {
    var tail := PostTail(length);
    assert s[|s| - |tail|..] == tail;
    PostTailLetter(length);
    assert s[|s| - 2] == tail[|tail| - 2];
    forall l: Length | l != length ensures !EndsWith(s, PostTail(l)) {
      PostTailLetter(l);
    }
  }

  /** A stored post prompt determines the topic, tone and length that built it. */
  lemma PostPromptRoundTrip(topic: string, tone: Tone, length: Length)
    ensures ParsePostPrompt(PostPrompt(topic, tone, length)) == Some((topic, tone, length))
  {
    var s := PostPrompt(topic, tone, length);
    var head, tail := PostHead(tone), PostTail(length);
    Middle(head, topic, tail);
    PostToneOf(s, tone, topic + tail);
    PostLengthOf(s, head + topic, length);
  }

  /** Cutting the first and last pieces off a three-piece text leaves the
      middle one. */
  lemma Middle(a: string, b: string, c: string)
    ensures a + b + c == a + (b + c)
    ensures (a + b + c)[|a| .. |a + b + c| - |c|] == b
  {
  }

  // ---------------------------------------------------------------------
  // Stories

  /** f"Generate a {length.lower()} {genre.lower()} story featuring
      {characters}. Plot elements: {plot}", with the lowered labels. */
  function StoryPrompt(length: Length, genre: Genre, characters: string, plot: string): string
  {
    StoryHead(length, genre) + characters + ". Plot elements: " + plot
  }

  /** The part of a story prompt before the characters. */
  function StoryHead(length: Length, genre: Genre): string
  {
    "Generate a " + LengthWord(length) + " " + GenreWord(genre) + " story featuring "
  }

  function StoryGenre(s: string, length: Length): Option<Genre>
  {
    if StoryHead(length, Fantasy) <= s then Some(Fantasy)
    else if StoryHead(length, Mystery) <= s then Some(Mystery)
    else if StoryHead(length, SciFi) <= s then Some(SciFi)
    else None
  }

  /** Reads length and genre back out of a story prompt, with the text after
      the head: the characters, ". Plot elements: " and the plot. The
      characters and plot are free text, so where one ends and the other
      starts is not recoverable in general. */
  function ParseStoryPrompt(s: string): Option<(Length, Genre, string)>
  {
    var g :=
      if StoryGenre(s, Short).Some? then Some((Short, StoryGenre(s, Short).value))
      else if StoryGenre(s, Medium).Some? then Some((Medium, StoryGenre(s, Medium).value))
      else if StoryGenre(s, Long).Some? then Some((Long, StoryGenre(s, Long).value))
      else None;
    if g.None? then None
    else Some((g.value.0, g.value.1, s[|StoryHead(g.value.0, g.value.1)|..]))
  }

  /** Where the length word and the genre word start in a story head, and
      their first letters. */
  lemma StoryHeadLetters(length: Length, genre: Genre)
    ensures var w := LengthWord(length); var h := StoryHead(length, genre);
            && |h| > 12 + |w|
            && h[11] == (match length case Short => 's' case Medium => 'm' case Long => 'l')
            && h[12 + |w|] == (match genre case Fantasy => 'f' case Mystery => 'm' case SciFi => 's')
  {
    
  }

  /** The genre read back under the right length word is the one written. */
  lemma StoryGenreOf(s: string, length: Length, genre: Genre, rest: string)
    requires s == StoryHead(length, genre) + rest
    ensures StoryGenre(s, length) == Some(genre)
  {
    var head := StoryHead(length, genre);
    var k := 12 + |LengthWord(length)|;
    assert s[..|head|] == head;
    StoryHeadLetters(length, genre);
    assert s[k] == head[k];
    forall g: Genre | g != genre ensures !(StoryHead(length, g) <= s) {
      StoryHeadLetters(length, g);
    }
  }

  /** Under any other length word nothing is read back. */
  lemma StoryGenreOther(s: string, length: Length, genre: Genre, rest: string, l: Length)
    requires s == StoryHead(length, genre) + rest
    requires l != length
    ensures StoryGenre(s, l) == None
  {
    var head := StoryHead(length, genre);
    assert s[..|head|] == head;
    StoryHeadLetters(length, genre);
    assert s[11] == head[11];
    forall g: Genre ensures !(StoryHead(l, g) <= s) {
      StoryHeadLetters(l, g);
    }
  }

  lemma StoryHeadOf(s: string, length: Length, genre: Genre, rest: string)
    requires s == StoryHead(length, genre) + rest
    ensures ParseStoryPrompt(s) == Some((length, genre, rest))
  {
    StoryGenreOf(s, length, genre, rest);
    forall l: Length | l != length ensures StoryGenre(s, l) == None {
      StoryGenreOther(s, length, genre, rest, l);
    }
    assert s[|StoryHead(length, genre)|..] == rest;
  }

  /** A stored story prompt determines the length and genre that built it,
      and what follows its head is the characters, ". Plot elements: " and
      the plot. */
  lemma StoryPromptRoundTrip(length: Length, genre: Genre, characters: string, plot: string)
    ensures ParseStoryPrompt(StoryPrompt(length, genre, characters, plot))
            == Some((length, genre, characters + ". Plot elements: " + plot))
  {
    var s := StoryPrompt(length, genre, characters, plot);
    var rest := characters + ". Plot elements: " + plot;
    assert s == StoryHead(length, genre) + rest;
    StoryHeadOf(s, length, genre, rest);
  }
}
