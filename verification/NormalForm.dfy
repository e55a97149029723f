/** The normal form a submitted pick is brought into before it is queued: it decides which submissions are
    the same pick. */
module NormalForm {
  import opened Wrappers
  import opened Picks

  // ---- Characters and codes -------------------------------------------------------------------------------

  /** `isspace` in the C locale: the blank and the five control characters from tab to carriage return. */
  predicate IsBlank(c: char) {
    c == ' ' || '\t' <= c <= '\r'
  }

  /** `toupper` in the C locale. */
  function ToUpper(c: char): char {
    if 'a' <= c <= 'z' then (c as int - 32) as char else c
  }

  /** The lemma that names each blank and each letter: what a code becomes, one character at a time. */
  lemma CanonicalOfCharacter(s: string, c: char)
    ensures Canonical("") == ""
    ensures c in [' ', '\t', '\n', '\U{0B}', '\U{0C}', '\r'] ==> Canonical(s + [c]) == Canonical(s)
    ensures forall i :: 0 <= i < 26 && c == "abcdefghijklmnopqrstuvwxyz"[i] ==>
              Canonical(s + [c]) == Canonical(s) + ["ABCDEFGHIJKLMNOPQRSTUVWXYZ"[i]]
    ensures c !in [' ', '\t', '\n', '\U{0B}', '\U{0C}', '\r'] && c !in "abcdefghijklmnopqrstuvwxyz" ==>
              Canonical(s + [c]) == Canonical(s) + [c]
  {
    assert (s + [c])[..|s|] == s;
    CanonicalSnoc(s + [c]);
    Capitals(c);
    assert IsBlank(c) <==> c in [' ', '\t', '\n', '\U{0B}', '\U{0C}', '\r'];
  }

  lemma Capitals(c: char)
    ensures forall i :: 0 <= i < 26 && c == "abcdefghijklmnopqrstuvwxyz"[i] ==>
              ToUpper(c) == "ABCDEFGHIJKLMNOPQRSTUVWXYZ"[i] && !IsBlank(c)
    ensures c !in "abcdefghijklmnopqrstuvwxyz" ==> ToUpper(c) == c
  {
    Alphabet();
    if 'a' <= c <= 'z' {
      assert "abcdefghijklmnopqrstuvwxyz"[c as int - 97] == c;
    }
  }

  lemma Alphabet()
    ensures forall i :: 0 <= i < 26 ==> "abcdefghijklmnopqrstuvwxyz"[i] == (97 + i) as char
    ensures forall i :: 0 <= i < 26 ==> "ABCDEFGHIJKLMNOPQRSTUVWXYZ"[i] == (65 + i) as char
  {
  }

  function RemoveBlanks(s: string): string {
    if s == [] then []
    else
      var init, last := s[..|s| - 1], s[|s| - 1];
      RemoveBlanks(init) + if IsBlank(last) then [] else [last]
  }

  function Upper(s: string): string {
    seq(|s|, i requires 0 <= i < |s| => ToUpper(s[i]))
  }

  function Canonical(s: string): string {
    Upper(RemoveBlanks(s))
  }

  method CapitalizeAndRemoveBlanks(input: string) returns (result: string)
    ensures result == Canonical(input)
  {
    var kept := [];
    for i := 0 to |input|
      invariant kept == RemoveBlanks(input[..i])
    {
      assert input[..i + 1][..i] == input[..i];
      if !IsBlank(input[i]) {
        kept := kept + [input[i]];
      }
    }
    assert input[..|input|] == input;
    result := kept;
    for i := 0 to |kept|
      invariant |result| == |kept|
      invariant forall j :: 0 <= j < |kept| ==> result[j] == if j < i then ToUpper(kept[j]) else kept[j]
    {
      result := result[i := ToUpper(kept[i])];
    }
  }

  /** The same character, or the small and the capital form of one letter. */
  predicate SameLetter(c: char, d: char) {
    c == d || IsCapitalOf(c, d) || IsCapitalOf(d, c)
  }

  predicate IsCapitalOf(capital: char, small: char) {
    exists i :: 0 <= i < 26
                && small == "abcdefghijklmnopqrstuvwxyz"[i] && capital == "ABCDEFGHIJKLMNOPQRSTUVWXYZ"[i]
  }

  lemma SameLetterExactly(c: char, d: char)
    ensures ToUpper(c) == ToUpper(d) <==> SameLetter(c, d)
  {
    IsCapitalOfExactly(c, d);
    IsCapitalOfExactly(d, c);
    hide IsCapitalOf;
  }

  lemma IsCapitalOfExactly(capital: char, small: char)
    ensures IsCapitalOf(capital, small) <==> 'a' <= small <= 'z' && capital == ToUpper(small)
  {
    Alphabet();
    if 'a' <= small <= 'z' {
      var i := small as int - 97;
      assert small == "abcdefghijklmnopqrstuvwxyz"[i] && ToUpper(small) == "ABCDEFGHIJKLMNOPQRSTUVWXYZ"[i];
    }
  }

  /** Equality of two codes up to blanks and letter case, read off the codes themselves from the right. */
  predicate SameCode(a: string, b: string)
    decreases |a| + |b|
  {
    if a != [] && IsBlank(a[|a| - 1]) then SameCode(a[..|a| - 1], b)
    else if b != [] && IsBlank(b[|b| - 1]) then SameCode(a, b[..|b| - 1])
    else if a == [] || b == [] then a == [] && b == []
    else SameLetter(a[|a| - 1], b[|b| - 1]) && SameCode(a[..|a| - 1], b[..|b| - 1])
  }

  predicate AllBlank(s: string) {
    forall i :: 0 <= i < |s| ==> IsBlank(s[i])
  }

  lemma RemoveBlanksLeavesNone(s: string)
    ensures forall i :: 0 <= i < |RemoveBlanks(s)| ==> !IsBlank(RemoveBlanks(s)[i])
  {
  }

  lemma {:induction false} RemoveBlanksKeeps(s: string)
    requires forall i :: 0 <= i < |s| ==> !IsBlank(s[i])
    ensures RemoveBlanks(s) == s
  {
    if s == [] {
    } else {
      RemoveBlanksKeeps(s[..|s| - 1]);
      assert s == s[..|s| - 1] + [s[|s| - 1]];
    }
  }

  /** Bringing a code into canonical form a second time changes nothing. */
  lemma CanonicalIdempotent(s: string)
    ensures Canonical(Canonical(s)) == Canonical(s)
  {
    RemoveBlanksLeavesNone(s);
    RemoveBlanksKeeps(Canonical(s));
  }

  lemma {:induction false} CanonicalEmpty(s: string)
    ensures Canonical(s) == [] <==> AllBlank(s)
  {
    if s == [] {
    } else {
      CanonicalEmpty(s[..|s| - 1]);
      assert s == s[..|s| - 1] + [s[|s| - 1]];
    }
  }

  lemma CanonicalSnoc(s: string)
    requires s != []
    ensures Canonical(s) == Canonical(s[..|s| - 1]) + if IsBlank(s[|s| - 1]) then [] else [ToUpper(s[|s| - 1])]
  {
  }

  /** Two codes have the same canonical form exactly when they agree up to blanks and letter case. */
  lemma {:induction false} CanonicalIdentifies(a: string, b: string)
    ensures Canonical(a) == Canonical(b) <==> SameCode(a, b)
    decreases |a| + |b|
  {
    if a != [] { CanonicalSnoc(a); }
    if b != [] { CanonicalSnoc(b); }
    if a != [] && IsBlank(a[|a| - 1]) {
      CanonicalIdentifies(a[..|a| - 1], b);
    } else if b != [] && IsBlank(b[|b| - 1]) {
      CanonicalIdentifies(a, b[..|b| - 1]);
    } else if a != [] && b != [] {
      CanonicalIdentifies(a[..|a| - 1], b[..|b| - 1]);
      SameLetterExactly(a[|a| - 1], b[|b| - 1]);
      SnocInjective(Canonical(a[..|a| - 1]), ToUpper(a[|a| - 1]), Canonical(b[..|b| - 1]), ToUpper(b[|b| - 1]));
    }
  }

  lemma SnocInjective(s: string, c: char, t: string, d: char)
    ensures s + [c] == t + [d] <==> s == t && c == d
  {
    if s + [c] == t + [d] {
      assert (s + [c])[..|s|] == s && (t + [d])[..|t|] == t;
      assert (s + [c])[|s|] == c && (t + [d])[|t|] == d;
    }
  }

  // ---- Messages -------------------------------------------------------------------------------------------

  const DEFAULT_LOCATION := "--"
  const DEFAULT_ALGORITHM := "uFilterPicker"

  function FixCode(code: Option<string>, unset: string, empty: string): Result<string, Error> {
    if code.None? then Failure(InvalidArgument(unset))
    else if Canonical(code.value) == [] then Failure(InvalidArgument(empty))
    else Success(Canonical(code.value))
  }

  function FixLocation(code: Option<string>): string {
    if code.None? || Canonical(code.value) == [] then DEFAULT_LOCATION else Canonical(code.value)
  }

  function FixStreamIdentifier(id: StreamIdentifier): Result<StreamIdentifier, Error> {
    var network := FixCode(id.network, "Network not set", "Network is empty");
    var station := FixCode(id.station, "Station not set", "Station is empty");
    var channel := FixCode(id.channel, "Channel not set", "Channel is empty");
    if network.Failure? then Failure(network.error)
    else if station.Failure? then Failure(station.error)
    else if channel.Failure? then Failure(channel.error)
    else Success(StreamIdentifier(Some(network.value), Some(station.value), Some(channel.value),
                                  Some(FixLocation(id.locationCode))))
  }

  function FixAlgorithm(a: Algorithm): Result<Algorithm, Error> {
    if a.version.None? then Failure(InvalidArgument("Algorithm version not set"))
    else Success(a.(name := if a.name.None? then Some(DEFAULT_ALGORITHM) else a.name))
  }

  /** The pick as it will be queued, or the exception its submission raises before the clock is consulted. */
  function Normalize(p: Pick): Result<Pick, Error> {
    if p.streamIdentifier.None? then Failure(InvalidArgument("Stream identifier not set"))
    else if p.time.None? then Failure(InvalidArgument("Pick time not set"))
    else if p.algorithm.None? then Failure(InvalidArgument("Algorithm not set"))
    else
      var id := FixStreamIdentifier(p.streamIdentifier.value);
      if id.Failure? then Failure(id.error)
      else
        var algorithm := FixAlgorithm(p.algorithm.value);
        if algorithm.Failure? then Failure(algorithm.error)
        else Success(p.(streamIdentifier := Some(id.value), algorithm := Some(algorithm.value)))
  }

  lemma BlankCode(code: Option<string>)
    ensures code.Some? ==> (Canonical(code.value) == [] <==> AllBlank(code.value))
  {
    if code.Some? {
      CanonicalEmpty(code.value);
    }
  }

  method CheckAndFixStreamIdentifier(identifierIn: StreamIdentifier) returns (r: Result<StreamIdentifier, Error>)
    ensures r == FixStreamIdentifier(identifierIn)
    ensures var id := identifierIn;
            && (id.network.None? ==> r == Failure(InvalidArgument("Network not set")))
            && (id.network.Some? && AllBlank(id.network.value) ==> r == Failure(InvalidArgument("Network is empty")))
            && (Filled(id.network) ==>
                && (id.station.None? ==> r == Failure(InvalidArgument("Station not set")))
                && (id.station.Some? && AllBlank(id.station.value) ==>
                    r == Failure(InvalidArgument("Station is empty"))))
            && (Filled(id.network) && Filled(id.station) ==>
                && (id.channel.None? ==> r == Failure(InvalidArgument("Channel not set")))
                && (id.channel.Some? && AllBlank(id.channel.value) ==>
                    r == Failure(InvalidArgument("Channel is empty"))))
            && (Filled(id.network) && Filled(id.station) && Filled(id.channel) ==>
                r == Success(StreamIdentifier(
                  Some(Canonical(id.network.value)), Some(Canonical(id.station.value)),
                  Some(Canonical(id.channel.value)),
                  Some(if Filled(id.locationCode) then Canonical(id.locationCode.value) else "--"))))
  {
    BlankCode(identifierIn.network);
    BlankCode(identifierIn.station);
    BlankCode(identifierIn.channel);
    BlankCode(identifierIn.locationCode);
    hide Canonical;
    var identifier := identifierIn;
    if identifier.network.None? {
      return Failure(InvalidArgument("Network not set"));
    }
    var network := CapitalizeAndRemoveBlanks(identifier.network.value);
    if network == [] {
      return Failure(InvalidArgument("Network is empty"));
    }
    identifier := identifier.(network := Some(network));
    if identifier.station.None? {
      return Failure(InvalidArgument("Station not set"));
    }
    var station := CapitalizeAndRemoveBlanks(identifier.station.value);
    if station == [] {
      return Failure(InvalidArgument("Station is empty"));
    }
    identifier := identifier.(station := Some(station));
    if identifier.channel.None? {
      return Failure(InvalidArgument("Channel not set"));
    }
    var channel := CapitalizeAndRemoveBlanks(identifier.channel.value);
    if channel == [] {
      return Failure(InvalidArgument("Channel is empty"));
    }
    identifier := identifier.(channel := Some(channel));
    if identifier.locationCode.None? {
      identifier := identifier.(locationCode := Some(DEFAULT_LOCATION));
    } else {
      var location := CapitalizeAndRemoveBlanks(identifier.locationCode.value);
      if location == [] {
        identifier := identifier.(locationCode := Some(DEFAULT_LOCATION));
      } else {
        identifier := identifier.(locationCode := Some(location));
      }
    }
    return Success(identifier);
  }

  method CheckAndFixAlgorithm(algorithmIn: Algorithm) returns (r: Result<Algorithm, Error>)
    ensures r == FixAlgorithm(algorithmIn)
    ensures algorithmIn.version.None? ==> r == Failure(InvalidArgument("Algorithm version not set"))
    ensures algorithmIn.version.Some? ==>
              r == Success(Algorithm(if algorithmIn.name.None? then Some("uFilterPicker") else algorithmIn.name,
                                     algorithmIn.version, algorithmIn.tag))
  {
    var algorithm := algorithmIn;
    if algorithm.name.None? {
      algorithm := algorithm.(name := Some(DEFAULT_ALGORITHM));
    }
    if algorithm.version.None? {
      return Failure(InvalidArgument("Algorithm version not set"));
    }
    return Success(algorithm);
  }

  // ---- Which submissions are the same pick ----------------------------------------------------------------

  predicate NormalCode(code: Option<string>) {
    && code.Some?
    && code.value != []
    && forall i :: 0 <= i < |code.value| ==> !IsBlank(code.value[i]) && !('a' <= code.value[i] <= 'z')
  }

  /** A pick in normal form: four non-empty codes without blanks or lower-case letters, a time, and an
      algorithm with a name and a version. */
  predicate Normal(p: Pick) {
    && p.streamIdentifier.Some? && p.time.Some? && p.algorithm.Some?
    && NormalCode(p.streamIdentifier.value.network)
    && NormalCode(p.streamIdentifier.value.station)
    && NormalCode(p.streamIdentifier.value.channel)
    && NormalCode(p.streamIdentifier.value.locationCode)
    && p.algorithm.value.name.Some? && p.algorithm.value.version.Some?
  }

  lemma CanonicalIsNormal(s: string)
    ensures Canonical(s) != [] ==> NormalCode(Some(Canonical(s)))
  {
    RemoveBlanksLeavesNone(s);
  }

  lemma NormalCodeIsCanonical(s: string)
    requires NormalCode(Some(s))
    ensures Canonical(s) == s
  {
    RemoveBlanksKeeps(s);
  }

  /** A submission leaves normalisation in normal form, and the picks in normal form are exactly the ones
      normalisation leaves alone. */
  lemma NormalizeReachesNormalForm(p: Pick)
    ensures Normalize(p).Success? ==> Normal(Normalize(p).value)
    ensures Normal(p) <==> Normalize(p) == Success(p)
  {
    if Normalize(p).Success? {
      var id := p.streamIdentifier.value;
      CanonicalIsNormal(id.network.value);
      CanonicalIsNormal(id.station.value);
      CanonicalIsNormal(id.channel.value);
      if id.locationCode.Some? {
        CanonicalIsNormal(id.locationCode.value);
      }
    }
    if Normal(p) {
      var id := p.streamIdentifier.value;
      NormalCodeIsCanonical(id.network.value);
      NormalCodeIsCanonical(id.station.value);
      NormalCodeIsCanonical(id.channel.value);
      NormalCodeIsCanonical(id.locationCode.value);
    }
  }

  predicate Filled(code: Option<string>) {
    code.Some? && !AllBlank(code.value)
  }

  /** A submission is refused before the clock is consulted exactly when one of the parts it must carry is
      missing or blank. */
  lemma AcceptedExactly(p: Pick)
    ensures Normalize(p).Success? <==>
            && p.streamIdentifier.Some? && p.time.Some? && p.algorithm.Some?
            && Filled(p.streamIdentifier.value.network)
            && Filled(p.streamIdentifier.value.station)
            && Filled(p.streamIdentifier.value.channel)
            && p.algorithm.value.version.Some?
  {
    if p.streamIdentifier.Some? {
      var id := p.streamIdentifier.value;
      if id.network.Some? { CanonicalEmpty(id.network.value); }
      if id.station.Some? { CanonicalEmpty(id.station.value); }
      if id.channel.Some? { CanonicalEmpty(id.channel.value); }
    }
  }

  lemma NormalizeIdempotent(p: Pick)
    requires Normalize(p).Success?
    ensures Normalize(Normalize(p).value) == Normalize(p)
  {
    NormalizeReachesNormalForm(p);
    NormalizeReachesNormalForm(Normalize(p).value);
  }

  predicate MeansNoLocation(code: Option<string>) {
    code.None? || AllBlank(code.value) || SameCode(code.value, DEFAULT_LOCATION)
  }

  predicate SameLocation(a: Option<string>, b: Option<string>) {
    || (MeansNoLocation(a) && MeansNoLocation(b))
    || (a.Some? && b.Some? && SameCode(a.value, b.value))
  }

  predicate MeansDefaultAlgorithm(name: Option<string>) {
    name.None? || name.value == DEFAULT_ALGORITHM
  }

  /** Two complete submissions that describe the same pick: the codes agree up to blanks and case, a missing or
      blank location counts as "--", a missing algorithm name as the default one, and all else is equal. */
  predicate SamePick(p: Pick, q: Pick)
    requires Normalize(p).Success? && Normalize(q).Success?
  {
    var i, j := p.streamIdentifier.value, q.streamIdentifier.value;
    var a, b := p.algorithm.value, q.algorithm.value;
    && SameCode(i.network.value, j.network.value)
    && SameCode(i.station.value, j.station.value)
    && SameCode(i.channel.value, j.channel.value)
    && SameLocation(i.locationCode, j.locationCode)
    && (a.name == b.name || (MeansDefaultAlgorithm(a.name) && MeansDefaultAlgorithm(b.name)))
    && a.version == b.version && a.tag == b.tag
    && p.time == q.time && p.phaseHint == q.phaseHint
  }

  lemma LocationIdentified(a: Option<string>, b: Option<string>)
    ensures FixLocation(a) == FixLocation(b) <==> SameLocation(a, b)
  {
    assert Canonical(DEFAULT_LOCATION) == DEFAULT_LOCATION by {
      NormalCodeIsCanonical(DEFAULT_LOCATION);
    }
    if a.Some? {
      CanonicalEmpty(a.value);
      CanonicalIdentifies(a.value, DEFAULT_LOCATION);
    }
    if b.Some? {
      CanonicalEmpty(b.value);
      CanonicalIdentifies(b.value, DEFAULT_LOCATION);
    }
    if a.Some? && b.Some? {
      CanonicalIdentifies(a.value, b.value);
    }
  }

  /** Two accepted submissions become the same key exactly when they describe the same pick. */
  lemma SameKeyIffSamePick(p: Pick, q: Pick)
    requires Normalize(p).Success? && Normalize(q).Success?
    ensures Normalize(p) == Normalize(q) <==> SamePick(p, q)
  {
    var i, j := p.streamIdentifier.value, q.streamIdentifier.value;
    CanonicalIdentifies(i.network.value, j.network.value);
    CanonicalIdentifies(i.station.value, j.station.value);
    CanonicalIdentifies(i.channel.value, j.channel.value);
    LocationIdentified(i.locationCode, j.locationCode);
  }
}
