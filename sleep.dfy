/**
 * The sleep-sounds player (`Sleep`): a choice of ambient sounds and lofi
 * tracks, a sleep timer that counts whole seconds down and stops the sound,
 * and the bookkeeping of sample URLs fetched from the audio API: a cache of
 * URLs and a count of failed attempts per file, after three of which the
 * file is given up on until the user retries.
 */
module SleepSounds {
  import opened Decimal
  import opened Optional

  /** An ambient sound is either generated white noise or an audio sample file. */
  datatype SoundSource = Noise | Sample(url: string)

  datatype SoundOption = SoundOption(id: string, name: string, source: SoundSource)

  const AsmrOptions: seq<SoundOption> := [
    SoundOption("whitenoise", "White Noise", Noise),
    SoundOption("water", "Flowing Water", Sample("water-asmr.mp3")),
    SoundOption("rain", "Rain Sounds", Sample("rain-asmr.mp3")),
    SoundOption("cafe", "Cafe Ambience", Sample("cafe-asmr.mp3"))
  ]

  const LofiOptions: seq<SoundOption> := [
    SoundOption("study", "Study Beats", Sample("study-beats.mp3")),
    SoundOption("chill", "Chill Vibes", Sample("chill-vibes.mp3")),
    SoundOption("sleep", "Sleep Beats", Sample("sleep-beats.mp3"))
  ]

  datatype SoundKind = Asmr | Lofi

  /** What the player is asked to start: generated noise, or the sample file of that name. */
  datatype Playback = WhiteNoise | AudioSample(filename: string)

  /** `options.find((option) => option.id === value)`: the first option with the id, if any. */
  function FindOption(options: seq<SoundOption>, id: string): (r: Option<SoundOption>)
    ensures r.None? <==> forall i :: 0 <= i < |options| ==> options[i].id != id
    ensures r.Some? ==> exists i :: (0 <= i < |options| && options[i] == r.value && r.value.id == id &&
                                     forall j :: 0 <= j < i ==> options[j].id != id)
  {
    if options == [] then None
    else if options[0].id == id then Some(options[0])
    else
      var rest := FindOption(options[1..], id);
      if rest.Some? then
        assert exists i :: (0 <= i < |options| && options[i] == rest.value &&
                            forall j :: 0 <= j < i ==> options[j].id != id) by {
          var k :| 0 <= k < |options[1..]| && options[1..][k] == rest.value && rest.value.id == id &&
            forall j :: 0 <= j < k ==> options[1..][j].id != id;
          assert options[k + 1] == rest.value;
        }
        rest
      else rest
  }

  /** The option chosen in a select box: the one with the id, or else the first of the list. */
  function SelectOption(options: seq<SoundOption>, id: string): (r: SoundOption)
    requires |options| > 0
    ensures r in options
    ensures (exists i :: 0 <= i < |options| && options[i].id == id) ==> r.id == id
    ensures (forall i :: 0 <= i < |options| ==> options[i].id != id) ==> r == options[0]
  {
    match FindOption(options, id)
    case Some(o) => o
    case None => options[0]
  }

  /** No two options of a list share an id. */
  predicate DistinctIds(options: seq<SoundOption>) {
    forall i, j :: 0 <= i < j < |options| ==> options[i].id != options[j].id
  }

  /** In a list with distinct ids every option is chosen by its own id. */
  lemma SelectById(options: seq<SoundOption>, i: int)
    requires DistinctIds(options) && 0 <= i < |options|
    ensures SelectOption(options, options[i].id) == options[i]
  {
    var r := FindOption(options, options[i].id);
    var k :| 0 <= k < |options| && options[k] == r.value && r.value.id == options[i].id &&
      forall j :: 0 <= j < k ==> options[j].id != options[i].id;
    assert k == i;
  }

  /** The offered ambient sounds and lofi tracks have distinct ids. */
  lemma OfferedIdsDistinct()
    ensures DistinctIds(AsmrOptions) && DistinctIds(LofiOptions)
  {
  }

  /**
   * What playing the selected sound starts: white noise or the ambient
   * sample for the ambient kind, the lofi track's sample for the lofi kind,
   * and nothing for an option without a file.
   */
  function PlaybackFor(kind: SoundKind, asmr: SoundOption, lofi: SoundOption): (r: Option<Playback>)
    ensures kind == Asmr && asmr.source == Noise ==> r == Some(WhiteNoise)
    ensures kind == Asmr && asmr.source.Sample? ==>
      r == (if asmr.source.url != "" then Some(AudioSample(asmr.source.url)) else None)
    ensures kind == Lofi && lofi.source.Sample? ==>
      r == (if lofi.source.url != "" then Some(AudioSample(lofi.source.url)) else None)
    ensures kind == Lofi && lofi.source == Noise ==> r == None
    ensures r.Some? && r.value.AudioSample? ==> r.value.filename != ""
  {
    match kind
    case Asmr =>
      (match asmr.source
       case Noise => Some(WhiteNoise)
       case Sample(url) => if url != "" then Some(AudioSample(url)) else None)
    case Lofi =>
      (match lofi.source
       case Sample(url) => if url != "" then Some(AudioSample(url)) else None
       case Noise => None)
  }

  /** Every offered option has something to play. */
  lemma OfferedOptionsPlay(i: int, j: int)
    requires 0 <= i < |AsmrOptions| && 0 <= j < |LofiOptions|
    ensures PlaybackFor(Asmr, AsmrOptions[i], LofiOptions[j]).Some?
    ensures PlaybackFor(Lofi, AsmrOptions[i], LofiOptions[j]) == Some(AudioSample(LofiOptions[j].source.url))
  {
  }

  /** How `playWhiteNoise` went: started, or stopped at one of its three failure points. */
  datatype NoiseStart = NoiseStarted | NoAudioSystem | NoNoiseBuffer | NoisePlayFailed

  /** The player's flags: playing, loading, and the error shown. */
  datatype Status = Status(playing: bool, loading: bool, error: Option<string>)

  /**
   * The flags after a handler starts a request, up to where the start stops
   * being synchronous. A sample start is `playAudioSample` up to its first
   * `await`: loading, no error, the previous sound stopped. A white-noise
   * start runs to its end: playing and not loading when it started; not
   * loading and with an error when it failed, still playing only if it
   * failed before stopping the previous sound. No request changes nothing.
   */
  function AfterStart(request: Option<Playback>, start: NoiseStart, s: Status): (r: Status)
    ensures request.None? ==> r == s
    ensures request.Some? && request.value.AudioSample? ==> r == Status(false, true, None)
    ensures request == Some(WhiteNoise) ==>
      && !r.loading
      && (r.playing <==> start == NoiseStarted || (start == NoAudioSystem && s.playing))
      && (r.error.None? <==> start == NoiseStarted)
  {
    match request
    case None => s
    case Some(AudioSample(_)) => Status(false, true, None)
    case Some(WhiteNoise) =>
      match start
      case NoAudioSystem => Status(s.playing, false, Some("Could not initialize audio system"))
      case NoNoiseBuffer => Status(false, false, Some("Could not create noise buffer"))
      case NoisePlayFailed => Status(false, false, Some("Could not play white noise"))
      case NoiseStarted => Status(true, false, None)
  }

  /**
   * The sleep timer's updater, one second later: a positive count goes down
   * by one, and a count of zero is cleared.
   */
  function NextRemaining(t: Option<nat>): (r: Option<nat>)
    ensures t.Some? && t.value > 0 ==> r == Some(t.value - 1)
    ensures t.None? || t.value == 0 ==> r.None?
  {
    match t
    case Some(n) => if n > 0 then Some(n - 1) else None
    case None => None
  }

  /** The sleep timer after n steps. */
  function RemainingAfter(t: Option<nat>, n: nat): Option<nat>
    decreases n
  {
    if n == 0 then t else RemainingAfter(NextRemaining(t), n - 1)
  }

  /** A timer set to s seconds shows zero after s steps and is cleared on the next one. */
  lemma {:induction false} CountdownEnds(s: nat)
    ensures RemainingAfter(Some(s), s) == Some(0)
    ensures RemainingAfter(Some(s), s + 1) == None
  {
    if s > 0 {
      CountdownEnds(s - 1);
      AfterOneMore(Some(s - 1), s - 1);
      AfterOneMore(Some(s - 1), s);
      assert NextRemaining(Some(s)) == Some(s - 1);
    }
  }

  /** Taking one step first and then n is taking n + 1 steps. */
  lemma AfterOneMore(t: Option<nat>, n: nat)
    ensures RemainingAfter(NextRemaining(t), n) == RemainingAfter(t, n + 1)
  {
  }

  /** The three fields of the remaining time: hours, minutes and seconds. */
  function HoursMinutesSeconds(t: nat): (r: (nat, nat, nat))
    ensures r.1 < 60 && r.2 < 60
    ensures r.0 * 3600 + r.1 * 60 + r.2 == t
  {
    (t / 3600, (t % 3600) / 60, t % 60)
  }

  /** `formatTimeRemaining`: "--:--:--" with no timer, else the padded hours, minutes and seconds. */
  function FormatTimeRemaining(t: Option<nat>): string {
    match t
    case None => "--:--:--"
    case Some(s) =>
      var (h, m, sec) := HoursMinutesSeconds(s);
      Pad2(h) + [':'] + Pad2(m) + [':'] + Pad2(sec)
  }

  /**
   * Below 100 hours the text is HH:MM:SS: eight characters, colons at 2 and
   * 5, and the fields read back as the seconds remaining.
   */
  lemma FormatReadsBack(s: nat)
    requires s < 360000
    ensures var text := FormatTimeRemaining(Some(s));
      && |text| == 8 && text[2] == ':' && text[5] == ':'
      && IsDigit(text[0]) && IsDigit(text[1]) && IsDigit(text[3])
      && IsDigit(text[4]) && IsDigit(text[6]) && IsDigit(text[7])
      && (10 * DigitValue(text[0]) + DigitValue(text[1])) * 3600
         + (10 * DigitValue(text[3]) + DigitValue(text[4])) * 60
         + 10 * DigitValue(text[6]) + DigitValue(text[7]) == s
  {
    var (h, m, sec) := HoursMinutesSeconds(s);
    Pad2Value(h);
    Pad2Value(m);
    Pad2Value(sec);
  }

  /** What a request to the audio API ended with. */
  datatype FetchOutcome =
    | NotOk                  // the response status was not ok
    | ApiError(error: string) // the body reported `status: "error"`
    | Fetched(url: string)   // the body carried the file's URL
    | NetworkError           // the request itself failed

  /** A file counts as cached when the cache holds a non-empty URL for it. */
  predicate Cached(cache: map<string, string>, filename: string) {
    filename in cache && cache[filename] != ""
  }

  /** `retryCount[filename] || 0`. */
  function Retries(counts: map<string, int>, filename: string): int {
    if filename in counts then counts[filename] else 0
  }

  /** The attempts after which a file is given up on. */
  const MaxRetries := 3

  /** The bookkeeping after one `getAudioUrl` call, with what it returned and whether it fetched. */
  datatype Lookup = Lookup(cache: map<string, string>, counts: map<string, int>, error: Option<string>,
                           url: Option<string>, fetched: bool)

  /**
   * `getAudioUrl` on the cache, the retry counts and the error message:
   * a cached URL is returned with nothing changed; a file with three or
   * more failed attempts gets an error and no request; otherwise the
   * request is made, and its outcome either caches the URL and zeroes the
   * file's count or sets an error and adds one to the file's count.
   */
  function LookupStep(cache: map<string, string>, counts: map<string, int>, error: Option<string>,
                      filename: string, outcome: FetchOutcome): (r: Lookup)
    ensures Cached(cache, filename) ==>
      r == Lookup(cache, counts, error, Some(cache[filename]), false)
    ensures !Cached(cache, filename) && Retries(counts, filename) >= MaxRetries ==>
      && r.cache == cache && r.counts == counts && r.url == None && !r.fetched
      && r.error == Some("Failed to load audio after multiple attempts: " + filename)
    ensures r.fetched <==> !Cached(cache, filename) && Retries(counts, filename) < MaxRetries
    ensures r.fetched && outcome.Fetched? ==>
      && r.cache == cache[filename := outcome.url] && r.counts == counts[filename := 0]
      && r.url == Some(outcome.url) && r.error == error
    ensures r.fetched && !outcome.Fetched? ==>
      && r.cache == cache && r.counts == counts[filename := Retries(counts, filename) + 1]
      && r.url == None
    ensures r.fetched && outcome.NotOk? ==> r.error == Some("Failed to fetch audio: " + filename)
    ensures r.fetched && outcome.ApiError? ==> r.error == Some("API error: " + outcome.error)
    ensures r.fetched && outcome.NetworkError? ==> r.error == Some("Network error fetching audio: " + filename)
  {
    if Cached(cache, filename) then Lookup(cache, counts, error, Some(cache[filename]), false)
    else
      var currentRetries := Retries(counts, filename);
      if currentRetries >= MaxRetries then
        Lookup(cache, counts, Some("Failed to load audio after multiple attempts: " + filename), None, false)
      else
        match outcome
        case NotOk =>
          Lookup(cache, counts[filename := currentRetries + 1], Some("Failed to fetch audio: " + filename), None, true)
        case ApiError(e) =>
          Lookup(cache, counts[filename := currentRetries + 1], Some("API error: " + e), None, true)
        case Fetched(url) =>
          Lookup(cache[filename := url], counts[filename := 0], error, Some(url), true)
        case NetworkError =>
          Lookup(cache, counts[filename := currentRetries + 1], Some("Network error fetching audio: " + filename), None, true)
  }

  /** The number of requests a series of `getAudioUrl` calls for one file makes. */
  function RequestsMade(cache: map<string, string>, counts: map<string, int>, error: Option<string>,
                        filename: string, outcomes: seq<FetchOutcome>): nat
    decreases |outcomes|
  {
    if outcomes == [] then 0
    else
      var r := LookupStep(cache, counts, error, filename, outcomes[0]);
      (if r.fetched then 1 else 0) + RequestsMade(r.cache, r.counts, r.error, filename, outcomes[1..])
  }

  /**
   * However often playback of an uncached file is tried, while every request
   * fails at most three requests are made for it, fewer by the failures
   * already counted.
   */
  lemma {:induction false} AtMostThreeFailedRequests(cache: map<string, string>, counts: map<string, int>,
                                                      error: Option<string>, filename: string,
                                                      outcomes: seq<FetchOutcome>)
    requires !Cached(cache, filename) && 0 <= Retries(counts, filename)
    requires forall i :: 0 <= i < |outcomes| ==> !outcomes[i].Fetched?
    ensures RequestsMade(cache, counts, error, filename, outcomes) <=
      if Retries(counts, filename) >= MaxRetries then 0 else MaxRetries - Retries(counts, filename)
    decreases |outcomes|
  {
    if outcomes != [] {
      var r := LookupStep(cache, counts, error, filename, outcomes[0]);
      AtMostThreeFailedRequests(r.cache, r.counts, r.error, filename, outcomes[1..]);
    }
  }

  /** The state of the sleep-sounds component, without its audio plumbing. */
  class SleepPlayer {
    var isPlaying: bool
    var isLoading: bool
    var selectedAsmr: SoundOption
    var selectedLofi: SoundOption
    var activeSound: SoundKind
    /** The chosen sleep time in hours, and the seconds left of it. */
    var sleepTime: Option<nat>
    var timeRemaining: Option<nat>
    var audioCache: map<string, string>
    var audioError: Option<string>
    var retryCount: map<string, int>

    /** Retry counts are never negative. */
    predicate Valid()
      reads this
    {
      forall f :: f in retryCount ==> retryCount[f] >= 0
    }

    constructor()
      ensures Valid()
      ensures !isPlaying && !isLoading && activeSound == Asmr
      ensures selectedAsmr == AsmrOptions[0] && selectedLofi == LofiOptions[0]
      ensures sleepTime == None && timeRemaining == None
      ensures audioCache == map[] && audioError == None && retryCount == map[]
    {
      isPlaying := false;
      isLoading := false;
      selectedAsmr := AsmrOptions[0];
      selectedLofi := LofiOptions[0];
      activeSound := Asmr;
      sleepTime := None;
      timeRemaining := None;
      audioCache := map[];
      audioError := None;
      retryCount := map[];
    }

    /** `stopSound`: not playing, and no error. */
    method StopSound()
      modifies this`isPlaying, this`audioError
      ensures !isPlaying && audioError == None
    {
      isPlaying := false;
      audioError := None;
    }

    /** The player's flags. */
    function Flags(): Status
      reads this
    {
      Status(isPlaying, isLoading, audioError)
    }

    /**
     * `playWhiteNoise`, given how it goes: without an audio system it only
     * reports that; otherwise the previous sound is stopped and the noise
     * either starts or fails to.
     */
    method PlayWhiteNoise(start: NoiseStart)
      modifies this`isPlaying, this`isLoading, this`audioError
      ensures Flags() == AfterStart(Some(WhiteNoise), start, old(Flags()))
    {
      if start == NoAudioSystem {
        audioError := Some("Could not initialize audio system");
        isLoading := false;
        return;
      }
      StopSound();
      if start == NoNoiseBuffer {
        isLoading := false;
        audioError := Some("Could not create noise buffer");
        return;
      }
      if start == NoisePlayFailed {
        isPlaying := false;
        isLoading := false;
        audioError := Some("Could not play white noise");
      } else {
        isPlaying := true;
        isLoading := false;
        audioError := None;
      }
    }

    /** `playAudioSample` up to its first `await`: loading, no error, and the previous sound stopped. */
    method StartAudioSample(filename: string)
      modifies this`isPlaying, this`isLoading, this`audioError
      ensures Flags() == AfterStart(Some(AudioSample(filename)), NoiseStarted, old(Flags()))
    {
      isLoading := true;
      audioError := None;
      StopSound();
    }

    /** The dispatch shared by `playSelectedSound` and `handleRetry`: start what the request names. */
    method StartPlayback(request: Option<Playback>, start: NoiseStart)
      modifies this`isPlaying, this`isLoading, this`audioError
      ensures Flags() == AfterStart(request, start, old(Flags()))
    {
      match request
      case None =>
      case Some(WhiteNoise) => PlayWhiteNoise(start);
      case Some(AudioSample(filename)) => StartAudioSample(filename);
    }

    /**
     * `playSelectedSound`: loading and no error, then the selected sound is
     * started; the request is returned.
     */
    method PlaySelectedSound(start: NoiseStart) returns (request: Option<Playback>)
      modifies this`isPlaying, this`isLoading, this`audioError
      ensures request == PlaybackFor(activeSound, selectedAsmr, selectedLofi)
      ensures Flags() == AfterStart(request, start, Status(old(isPlaying), true, None))
    {
      isLoading := true;
      audioError := None;
      request := PlaybackFor(activeSound, selectedAsmr, selectedLofi);
      StartPlayback(request, start);
    }

    /**
     * `handleAsmrChange`: the chosen ambient sound becomes the active kind;
     * if something was playing it is stopped and the new sound requested.
     */
    method HandleAsmrChange(value: string) returns (restart: Option<Playback>)
      modifies this`selectedAsmr, this`activeSound, this`audioError, this`isPlaying
      ensures selectedAsmr == SelectOption(AsmrOptions, value) && activeSound == Asmr
      ensures audioError == None && !isPlaying
      ensures restart == if old(isPlaying) then PlaybackFor(Asmr, selectedAsmr, selectedLofi) else None
    {
      var selected := SelectOption(AsmrOptions, value);
      selectedAsmr := selected;
      activeSound := Asmr;
      audioError := None;
      restart := None;
      if isPlaying {
        StopSound();
        restart := PlaybackFor(Asmr, selected, selectedLofi);
      }
    }

    /** `handleLofiChange`: the same for the lofi tracks. */
    method HandleLofiChange(value: string) returns (restart: Option<Playback>)
      modifies this`selectedLofi, this`activeSound, this`audioError, this`isPlaying
      ensures selectedLofi == SelectOption(LofiOptions, value) && activeSound == Lofi
      ensures audioError == None && !isPlaying
      ensures restart == if old(isPlaying) then PlaybackFor(Lofi, selectedAsmr, selectedLofi) else None
    {
      var selected := SelectOption(LofiOptions, value);
      selectedLofi := selected;
      activeSound := Lofi;
      audioError := None;
      restart := None;
      if isPlaying {
        StopSound();
        restart := PlaybackFor(Lofi, selectedAsmr, selected);
      }
    }

    /**
     * `handleSleepTimeSet`: the timer is set to the hours chosen, in
     * seconds, and the selected sound is started unless it is already
     * playing or loading.
     */
    method HandleSleepTimeSet(hours: nat, start: NoiseStart) returns (request: Option<Playback>)
      modifies this`sleepTime, this`timeRemaining, this`isPlaying, this`isLoading, this`audioError
      ensures sleepTime == Some(hours) && timeRemaining == Some(hours * 3600)
      ensures !old(isPlaying) && !old(isLoading) ==>
        && request == PlaybackFor(activeSound, selectedAsmr, selectedLofi)
        && Flags() == AfterStart(request, start, Status(false, true, None))
      ensures old(isPlaying) || old(isLoading) ==> Flags() == old(Flags()) && request == None
    {
      var seconds := hours * 60 * 60;
      sleepTime := Some(hours);
      timeRemaining := Some(seconds);
      request := None;
      if !isPlaying && !isLoading {
        request := PlaySelectedSound(start);
      }
    }

    /**
     * The sleep timer's effect, one second on: a positive count goes down by
     * one; at zero the sound stops and the timer and the sleep time are
     * cleared; without a timer nothing happens.
     */
    method CountdownStep()
      modifies this`timeRemaining, this`sleepTime, this`isPlaying, this`audioError
      ensures timeRemaining == NextRemaining(old(timeRemaining))
      ensures old(timeRemaining) == Some(0) ==> sleepTime == None && !isPlaying && audioError == None
      ensures old(timeRemaining) != Some(0) ==>
        sleepTime == old(sleepTime) && isPlaying == old(isPlaying) && audioError == old(audioError)
    {
      match timeRemaining
      case Some(t) =>
        if t > 0 {
          timeRemaining := NextRemaining(timeRemaining);
        } else {
          StopSound();
          isPlaying := false;
          timeRemaining := None;
          sleepTime := None;
        }
      case None =>
    }

    /** `getAudioUrl` for a file, given what its request would end with. */
    method GetAudioUrl(filename: string, outcome: FetchOutcome) returns (url: Option<string>)
      requires Valid()
      modifies this`audioCache, this`retryCount, this`audioError
      ensures Valid()
      ensures var r := LookupStep(old(audioCache), old(retryCount), old(audioError), filename, outcome);
        audioCache == r.cache && retryCount == r.counts && audioError == r.error && url == r.url
    {
      if filename in audioCache && audioCache[filename] != "" {
        return Some(audioCache[filename]);
      }
      var currentRetries := if filename in retryCount then retryCount[filename] else 0;
      if currentRetries >= MaxRetries {
        audioError := Some("Failed to load audio after multiple attempts: " + filename);
        return None;
      }
      match outcome
      case NotOk =>
        audioError := Some("Failed to fetch audio: " + filename);
        retryCount := retryCount[filename := currentRetries + 1];
        url := None;
      case ApiError(e) =>
        audioError := Some("API error: " + e);
        retryCount := retryCount[filename := currentRetries + 1];
        url := None;
      case Fetched(u) =>
        audioCache := audioCache[filename := u];
        retryCount := retryCount[filename := 0];
        url := Some(u);
      case NetworkError =>
        audioError := Some("Network error fetching audio: " + filename);
        retryCount := retryCount[filename := currentRetries + 1];
        url := None;
    }

    /**
     * `handleRetry`: no error, an empty cache and no retry counts, and the
     * selected sound is started again, without first marking it as loading.
     */
    method HandleRetry(start: NoiseStart) returns (request: Option<Playback>)
      modifies this`audioError, this`audioCache, this`retryCount, this`isPlaying, this`isLoading
      ensures Valid()
      ensures audioCache == map[] && retryCount == map[]
      ensures request == PlaybackFor(activeSound, selectedAsmr, selectedLofi)
      ensures Flags() == AfterStart(request, start, Status(old(isPlaying), old(isLoading), None))
    {
      audioError := None;
      audioCache := map[];
      retryCount := map[];
      request := PlaybackFor(activeSound, selectedAsmr, selectedLofi);
      StartPlayback(request, start);
    }
  }
}
