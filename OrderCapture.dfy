/** The order form of the landing page (script.js): the e-mail shape check,
    the required-field validation, the shaping of the flat form data into
    the order record, its hand-over through session storage, and the
    highlighting of the chosen price card. */
module OrderCapture {
  import opened Text
  import opened Orders

  // ---------------------------------------------------------------------
  // E-mail shape: /^[^\s@]+@[^\s@]+\.[^\s@]+$/
  // ---------------------------------------------------------------------

  /** The domain part has a dot with at least one character on each side. */
  predicate HasInnerDot(domain: string)
  {
    exists k :: 0 < k < |domain| - 1 && domain[k] == '.'
  }

  /** `validateEmail`: no white space, exactly one `@`, a non-empty local
      part before it, and a domain after it holding an inner dot. */
  predicate ValidEmail(s: string)
  {
    && NoWhiteSpace(s)
    && '@' in s
    && var at := IndexOf(s, '@');
       at > 0 && '@' !in s[at + 1..] && HasInnerDot(s[at + 1..])
  }

  /** A run matched by `[^\s@]+`. */
  predicate Segment(x: string)
  {
    |x| > 0 && NoWhiteSpace(x) && '@' !in x
  }

  /** The regular expression read literally: `s` is three `[^\s@]+` runs
      separated by an `@` at `i` and a dot at `j`. */
  ghost predicate MatchesEmailPattern(s: string)
  {
    exists i, j :: 0 < i < j < |s| && s[i] == '@' && s[j] == '.' &&
      Segment(s[..i]) && Segment(s[i + 1..j]) && Segment(s[j + 1..])
  }

  lemma NoWhiteSpaceSlice(s: string, lo: nat, hi: nat)
    requires NoWhiteSpace(s) && lo <= hi <= |s|
    ensures NoWhiteSpace(s[lo..hi])
  {
    forall k | 0 <= k < hi - lo ensures !IsWhiteSpace(s[lo..hi][k]) {
      assert s[lo..hi][k] == s[lo + k];
    }
  }

  lemma ValidEmailHasPattern(s: string)
    requires ValidEmail(s)
    ensures MatchesEmailPattern(s)
  {
    var i := IndexOf(s, '@');
    var d := s[i + 1..];
    var k :| 0 < k < |d| - 1 && d[k] == '.';
    var j := i + 1 + k;
    assert s[j] == '.';
    assert d == d[..k] + d[k..];
    assert s[i + 1..j] == d[..k];
    assert s[j + 1..] == d[k + 1..];
    assert d[k..] == [d[k]] + d[k + 1..];
    NoWhiteSpaceSlice(s, 0, i);
    NoWhiteSpaceSlice(s, i + 1, j);
    NoWhiteSpaceSlice(s, j + 1, |s|);
    assert Segment(s[..i]) && Segment(s[i + 1..j]) && Segment(s[j + 1..]);
  }

  lemma PatternIsValidEmail(s: string)
    requires MatchesEmailPattern(s)
    ensures ValidEmail(s)
  {
    var i, j :| 0 < i < j < |s| && s[i] == '@' && s[j] == '.' &&
      Segment(s[..i]) && Segment(s[i + 1..j]) && Segment(s[j + 1..]);
    IndexOfUnique(s, '@', i);
    forall k | 0 <= k < |s| ensures !IsWhiteSpace(s[k]) && (k > i ==> s[k] != '@') {
      if k < i {
        assert s[k] == s[..i][k];
      } else if i < k < j {
        assert s[k] == s[i + 1..j][k - i - 1];
      } else if j < k {
        assert s[k] == s[j + 1..][k - j - 1];
      }
    }
    var d := s[i + 1..];
    assert d[j - i - 1] == '.';
    assert HasInnerDot(d);
    assert forall k :: 0 <= k < |d| ==> d[k] != '@';
  }

  /** The e-mail check accepts exactly the strings the regular expression
      matches. */
  lemma ValidEmailMatchesPattern(s: string)
    ensures ValidEmail(s) <==> MatchesEmailPattern(s)
  {
    if ValidEmail(s) {
      ValidEmailHasPattern(s);
    }
    if MatchesEmailPattern(s) {
      PatternIsValidEmail(s);
    }
  }

  // ---------------------------------------------------------------------
  // Form data
  // ---------------------------------------------------------------------

  /** A value of the `data` object: a form string, or the `checked` state
      stored for the terms checkbox. */
  datatype FieldValue = Str(s: string) | Flag(b: bool)

  type FormData = map<string, FieldValue>

  const TermsField := "terms-agreement"

  /** What the handler stores for one `(name, value)` entry of the form. */
  function EntryValue(entry: (string, string), termsChecked: bool): FieldValue
  {
    if entry.0 == TermsField then Flag(termsChecked) else Str(entry.1)
  }

  /** Only the terms field holds a flag; every other field holds a string. */
  predicate WellFormed(data: FormData)
  {
    forall k :: k in data ==> (data[k].Flag? <==> k == TermsField)
  }

  /** The `data` object after copying the entries in order; a later entry
      with the same name overwrites an earlier one. */
  function FormDataOf(entries: seq<(string, string)>, termsChecked: bool): (data: FormData)
    ensures WellFormed(data)
  {
    if entries == [] then map[]
    else
      var last := entries[|entries| - 1];
      FormDataOf(entries[..|entries| - 1], termsChecked)[last.0 := EntryValue(last, termsChecked)]
  }

  /** No later entry has the same name as entry `j`. */
  predicate LastWithName(entries: seq<(string, string)>, j: nat)
    requires j < |entries|
  {
    forall k :: j < k < |entries| ==> entries[k].0 != entries[j].0
  }

  /** The collected data has one key per entry name. */
  lemma {:induction false} FormDataOfKeys(entries: seq<(string, string)>, termsChecked: bool)
    ensures FormDataOf(entries, termsChecked).Keys == set j | 0 <= j < |entries| :: entries[j].0
  {
    if entries != [] {
      var n := |entries| - 1;
      var init := entries[..n];
      FormDataOfKeys(init, termsChecked);
      assert (set j | 0 <= j < |entries| :: entries[j].0) ==
        (set j | 0 <= j < |init| :: init[j].0) + {entries[n].0};
    }
  }

  /** Under each name the collected data holds the value of the last entry
      carrying that name. */
  lemma {:induction false} FormDataOfLastWins(entries: seq<(string, string)>, termsChecked: bool, j: nat)
    requires j < |entries| && LastWithName(entries, j)
    ensures entries[j].0 in FormDataOf(entries, termsChecked)
    ensures FormDataOf(entries, termsChecked)[entries[j].0] == EntryValue(entries[j], termsChecked)
  {
    var n := |entries| - 1;
    if j < n {
      var init := entries[..n];
      assert entries[j] == init[j];
      FormDataOfLastWins(init, termsChecked, j);
    }
  }

  /** The loop of the submit handler copying `formData.entries()` into
      `data`. */
  method CollectFormData(entries: seq<(string, string)>, termsChecked: bool) returns (data: FormData)
    ensures data == FormDataOf(entries, termsChecked)
  {
    data := map[];
    var i := 0;
    while i < |entries|
      invariant 0 <= i <= |entries|
      invariant data == FormDataOf(entries[..i], termsChecked)
    {
      var (key, value) := entries[i];
      if key == TermsField {
        data := data[key := Flag(termsChecked)];
      } else {
        data := data[key := Str(value)];
      }
      assert entries[..i + 1][..i] == entries[..i];
      i := i + 1;
    }
    assert entries[..|entries|] == entries;
  }

  /** `data[key] || ''` for a field that holds a string. */
  function TextOf(data: FormData, key: string): string
  {
    if key in data && data[key].Str? then data[key].s else ""
  }

  // ---------------------------------------------------------------------
  // Required-field validation
  // ---------------------------------------------------------------------

  const RequiredFields: seq<string> := [
    "product-type", "recipient-name", "occasion", "story-themes", "genre",
    "tone", "language-preference", "email", TermsField]

  datatype FormError = MissingField(field: string) | TermsNotAccepted | InvalidEmail

  predicate TermsAccepted(data: FormData)
  {
    TermsField in data && match data[TermsField]
      case Flag(b) => b
      case Str(s) => s != ""
  }

  /** The check of one required field: the checkbox must be truthy, a text
      field present and not blank after trimming. */
  predicate FieldFails(data: FormData, field: string)
  {
    if field == TermsField then !TermsAccepted(data) else Trim(TextOf(data, field)) == ""
  }

  function FailureOf(field: string): FormError
  {
    if field == TermsField then TermsNotAccepted else MissingField(field)
  }

  predicate RequiredFieldsPresent(data: FormData)
  {
    forall i :: 0 <= i < |RequiredFields| ==> !FieldFails(data, RequiredFields[i])
  }

  /** `validateOrderForm(data)` returns true. */
  predicate FormAccepted(data: FormData)
  {
    RequiredFieldsPresent(data) && ValidEmail(TextOf(data, "email"))
  }

  /** The failure reported when checking `fields` in order, and then the
      e-mail shape. */
  function FailureIn(data: FormData, fields: seq<string>): Option<FormError>
  {
    if fields == [] then
      if ValidEmail(TextOf(data, "email")) then None else Some(InvalidEmail)
    else if FieldFails(data, fields[0]) then Some(FailureOf(fields[0]))
    else FailureIn(data, fields[1..])
  }

  /** The failure `validateOrderForm` reports: the first failing required
      field in list order, otherwise a malformed e-mail, otherwise none. */
  function FirstFailure(data: FormData): Option<FormError>
  {
    FailureIn(data, RequiredFields)
  }

  /** `FailureIn(data, fields)` reports nothing exactly when every field
      passes and the e-mail has its shape, and the e-mail failure exactly
      when only the e-mail is wrong. */
  lemma {:induction false} FailureInPasses(data: FormData, fields: seq<string>)
    ensures FailureIn(data, fields).None? <==>
      (forall j :: 0 <= j < |fields| ==> !FieldFails(data, fields[j])) &&
      ValidEmail(TextOf(data, "email"))
    ensures FailureIn(data, fields) == Some(InvalidEmail) <==>
      (forall j :: 0 <= j < |fields| ==> !FieldFails(data, fields[j])) &&
      !ValidEmail(TextOf(data, "email"))
  {
    if fields != [] {
      var rest := fields[1..];
      FailureInPasses(data, rest);
      if FieldFails(data, fields[0]) {
        assert FailureIn(data, fields) == Some(FailureOf(fields[0]));
      } else {
        assert FailureIn(data, fields) == FailureIn(data, rest);
        assert (forall j :: 0 <= j < |fields| ==> !FieldFails(data, fields[j])) <==>
               (forall j :: 0 <= j < |rest| ==> !FieldFails(data, rest[j])) by {
          assert forall j :: 0 <= j < |rest| ==> rest[j] == fields[j + 1];
        }
      }
    }
  }

  /** Any other failure `FailureIn(data, fields)` reports belongs to the
      first failing field. */
  lemma {:induction false} FailureInFirst(data: FormData, fields: seq<string>)
    ensures FailureIn(data, fields).Some? && FailureIn(data, fields).value != InvalidEmail ==>
      exists k :: 0 <= k < |fields| && FieldFails(data, fields[k]) &&
        (forall j :: 0 <= j < k ==> !FieldFails(data, fields[j])) &&
        FailureIn(data, fields).value == FailureOf(fields[k])
  {
    if fields == [] {
    } else if FieldFails(data, fields[0]) {
      assert FailureIn(data, fields) == Some(FailureOf(fields[0]));
    } else {
      var rest := fields[1..];
      assert FailureIn(data, fields) == FailureIn(data, rest);
      FailureInFirst(data, rest);
      if FailureIn(data, rest).Some? && FailureIn(data, rest).value != InvalidEmail {
        var k :| 0 <= k < |rest| && FieldFails(data, rest[k]) &&
          (forall j :: 0 <= j < k ==> !FieldFails(data, rest[j])) &&
          FailureIn(data, rest).value == FailureOf(rest[k]);
        assert fields[k + 1] == rest[k];
        assert forall j :: 0 <= j < k + 1 ==> !FieldFails(data, fields[j]) by {
          assert forall j :: 0 <= j < k ==> rest[j] == fields[j + 1];
        }
      }
    }
  }

  /** `field.replace('-', ' ')`: only the first hyphen becomes a space. */
  function ReplaceFirstHyphen(field: string): (r: string)
    ensures |r| == |field|
    ensures '-' in field ==> r[IndexOf(field, '-')] == ' ' && '-' !in r[..IndexOf(field, '-')]
    ensures '-' !in field ==> r == field
    ensures forall k :: 0 <= k < |r| && !('-' in field && k == IndexOf(field, '-')) ==> r[k] == field[k]
  {
    if '-' in field then
      var i := IndexOf(field, '-');
      field[..i] + " " + field[i + 1..]
    else field
  }

  /** The message shown for a failed validation. */
  function Message(e: FormError): string
  {
    match e
    case MissingField(field) => "Please fill in the " + ReplaceFirstHyphen(field) + " field."
    case TermsNotAccepted => "You must agree to the Terms of Service and Privacy Policy to proceed."
    case InvalidEmail => "Please enter a valid email address."
  }

  /** `validateOrderForm`: the required fields are checked in order and the
      first failure is reported; only then is the e-mail shape checked.
      `None` stands for `true`. */
  method ValidateOrderForm(data: FormData) returns (failure: Option<FormError>)
    requires WellFormed(data)
    ensures failure == FirstFailure(data)
    ensures failure.None? <==> FormAccepted(data)
    ensures !TermsAccepted(data) ==> failure.Some?
    ensures failure == Some(InvalidEmail) <==>
      RequiredFieldsPresent(data) && !ValidEmail(TextOf(data, "email"))
    ensures failure.Some? && failure.value != InvalidEmail ==>
      exists i :: 0 <= i < |RequiredFields| && FieldFails(data, RequiredFields[i]) &&
        (forall j :: 0 <= j < i ==> !FieldFails(data, RequiredFields[j])) &&
        failure.value == FailureOf(RequiredFields[i])
  {
    FailureInPasses(data, RequiredFields);
    FailureInFirst(data, RequiredFields);
    assert RequiredFields[8] == TermsField;
    for i := 0 to |RequiredFields|
      invariant FirstFailure(data) == FailureIn(data, RequiredFields[i..])
    {
      assert RequiredFields[i..][1..] == RequiredFields[i + 1..];
      var field := RequiredFields[i];
      if FieldFails(data, field) {
        return Some(FailureOf(field));
      }
    }
    if !ValidEmail(TextOf(data, "email")) {
      return Some(InvalidEmail);
    }
    return None;
  }

  // ---------------------------------------------------------------------
  // The order record
  // ---------------------------------------------------------------------

  const AlbumSongCount := 5

  /** Name of the album sub-field `song<i>-<part>`. */
  function SongKey(i: nat, part: string): string
  {
    "song" + DecimalString(i) + "-" + part
  }

  /** Song `i` counts when its title or its story is non-empty. */
  predicate SongGiven(data: FormData, i: nat)
  {
    TextOf(data, SongKey(i, "title")) != "" || TextOf(data, SongKey(i, "story")) != ""
  }

  /** The entry pushed for song `i`. */
  function SongAt(data: FormData, i: nat): AlbumSong
  {
    AlbumSong(i, TextOf(data, SongKey(i, "title")), TextOf(data, SongKey(i, "story")),
              TextOf(data, SongKey(i, "language")))
  }

  /** The album list after the loop has looked at songs 1..n: the given
      ones, in the order they were pushed. */
  function AlbumSongsOf(data: FormData, n: nat): (songs: seq<AlbumSong>)
    ensures |songs| <= n
  {
    if n == 0 then []
    else AlbumSongsOf(data, n - 1) + (if SongGiven(data, n) then [SongAt(data, n)] else [])
  }

  predicate HasSongNumber(songs: seq<AlbumSong>, i: nat)
  {
    exists k :: 0 <= k < |songs| && songs[k].songNumber == i
  }

  /** Every entry is a given song among 1..n, carrying that song's fields. */
  lemma {:induction false} AlbumSongsEntries(data: FormData, n: nat)
    ensures forall k :: 0 <= k < |AlbumSongsOf(data, n)| ==>
      var song := AlbumSongsOf(data, n)[k];
      1 <= song.songNumber <= n && SongGiven(data, song.songNumber) && song == SongAt(data, song.songNumber)
  {
    if n > 0 {
      AlbumSongsEntries(data, n - 1);
    }
  }

  /** Entries are strictly ascending by song number. */
  lemma {:induction false} AlbumSongsAscending(data: FormData, n: nat)
    ensures forall k, m :: 0 <= k < m < |AlbumSongsOf(data, n)| ==>
      AlbumSongsOf(data, n)[k].songNumber < AlbumSongsOf(data, n)[m].songNumber
  {
    if n > 0 {
      AlbumSongsAscending(data, n - 1);
      AlbumSongsEntries(data, n - 1);
    }
  }

  /** Song `i` of 1..n is in the list exactly when its title or story is
      non-empty. */
  lemma {:induction false} AlbumSongsComplete(data: FormData, n: nat)
    ensures forall i :: 1 <= i <= n ==> (HasSongNumber(AlbumSongsOf(data, n), i) <==> SongGiven(data, i))
  {
    if n > 0 {
      AlbumSongsComplete(data, n - 1);
      AlbumSongsEntries(data, n);
      var prev := AlbumSongsOf(data, n - 1);
      var songs := AlbumSongsOf(data, n);
      forall i | 1 <= i <= n - 1 && HasSongNumber(prev, i) ensures HasSongNumber(songs, i) {
        var k :| 0 <= k < |prev| && prev[k].songNumber == i;
        assert songs[k] == prev[k];
      }
      if SongGiven(data, n) {
        assert songs[|songs| - 1].songNumber == n;
      }
    }
  }

  /** The record the submit handler stores under `orderData`. */
  predicate IsOrderRecordOf(order: Order, data: FormData)
  {
    && order.productType == TextOf(data, "product-type")
    && order.recipientName == TextOf(data, "recipient-name")
    && order.occasion == TextOf(data, "occasion")
    && order.storyThemes == TextOf(data, "story-themes")
    && order.artworkInspiration == TextOf(data, "artwork-inspiration")
    && order.genre == TextOf(data, "genre")
    && order.tone == TextOf(data, "tone")
    && order.languagePreference == TextOf(data, "language-preference")
    && order.email == TextOf(data, "email")
    && order.delivery == "Email Download"
    && order.promoCode == None
    && order.albumSongs == if TextOf(data, "product-type") == "album"
                           then Some(AlbumSongsOf(data, AlbumSongCount)) else None
  }

  /** Record shaping of the submit handler, with the positional loop over
      songs 1..5 that fills `albumSongs` for an album. */
  method BuildOrderRecord(data: FormData) returns (order: Order)
    ensures IsOrderRecordOf(order, data)
    ensures order.albumSongs.Some? <==> TextOf(data, "product-type") == "album"
    ensures order.albumSongs.Some? ==> |order.albumSongs.value| <= AlbumSongCount
  {
    var albumSongs: Option<seq<AlbumSong>> := None;
    if TextOf(data, "product-type") == "album" {
      var songs: seq<AlbumSong> := [];
      for i := 1 to AlbumSongCount + 1
        invariant songs == AlbumSongsOf(data, i - 1)
      {
        var title := TextOf(data, SongKey(i, "title"));
        var story := TextOf(data, SongKey(i, "story"));
        var language := TextOf(data, SongKey(i, "language"));
        if title != "" || story != "" {
          songs := songs + [AlbumSong(i, title, story, language)];
        }
      }
      albumSongs := Some(songs);
    }
    order := Order(
      TextOf(data, "product-type"), TextOf(data, "recipient-name"), TextOf(data, "occasion"),
      TextOf(data, "story-themes"), TextOf(data, "artwork-inspiration"), TextOf(data, "genre"),
      TextOf(data, "tone"), TextOf(data, "language-preference"), TextOf(data, "email"),
      "Email Download", albumSongs, None);
  }

  // ---------------------------------------------------------------------
  // The submit handler
  // ---------------------------------------------------------------------

  const CheckoutPageUrl := "checkout.html"

  /** The landing page as the submit handler sees it: the tab's session
      storage, the address it navigates to, and the error toast. */
  class OrderForm {
    var storage: SessionStorage
    var location: string
    var error: Option<FormError>
    /** The text of the last error toast. */
    var shownMessage: Option<string>

    constructor (storage: SessionStorage, location: string)
      ensures this.storage == storage && this.location == location
      ensures error == None && shownMessage == None
    {
      this.storage := storage;
      this.location := location;
      error := None;
      shownMessage := None;
    }

    /** `showErrorMessage`: the toast shows the failure's message. */
    method ShowError(e: FormError)
      modifies this`error, this`shownMessage
      ensures error == Some(e) && shownMessage == Some(Message(e))
    {
      error := Some(e);
      shownMessage := Some(Message(e));
    }

    /** Store the order record under `orderData` and go to checkout. */
    method StoreOrder(data: FormData)
      modifies this`storage, this`location
      ensures storage.Keys == old(storage).Keys + {OrderDataKey}
      ensures storage[OrderDataKey].OrderJson?
      ensures IsOrderRecordOf(storage[OrderDataKey].order, data)
      ensures forall k :: k in old(storage) && k != OrderDataKey ==> storage[k] == old(storage)[k]
      ensures location == CheckoutPageUrl
    {
      var order := BuildOrderRecord(data);
      storage := storage[OrderDataKey := OrderJson(order)];
      location := CheckoutPageUrl;
    }

    /** The submit handler: collect the entries, validate, and only when
        validation passes store the order record and go to checkout. */
    method Submit(entries: seq<(string, string)>, termsChecked: bool)
      modifies this
      ensures var data := FormDataOf(entries, termsChecked);
        !FormAccepted(data) ==>
          && storage == old(storage) && location == old(location)
          && error.Some? && shownMessage == Some(Message(error.value))
      ensures !FormAccepted(FormDataOf(entries, termsChecked)) ==>
        error == FirstFailure(FormDataOf(entries, termsChecked))
      ensures var data := FormDataOf(entries, termsChecked);
        FormAccepted(data) ==>
          && storage.Keys == old(storage).Keys + {OrderDataKey}
          && storage[OrderDataKey].OrderJson?
          && IsOrderRecordOf(storage[OrderDataKey].order, data)
          && (forall k :: k in old(storage) && k != OrderDataKey ==> storage[k] == old(storage)[k])
          && location == CheckoutPageUrl
          && error == old(error) && shownMessage == old(shownMessage)
    {
      var data := CollectFormData(entries, termsChecked);
      var failure := ValidateOrderForm(data);
      if failure.Some? {
        ShowError(failure.value);
        return;
      }
      StoreOrder(data);
    }
  }

  // ---------------------------------------------------------------------
  // Price-card highlight
  // ---------------------------------------------------------------------

  /** `updatePricingHighlight`: clear `featured` on every card, then set it
      on card 0 for a single song or card 1 for an album. `ok` is false when
      that card does not exist, where the script stops with a TypeError
      after clearing. */
  method UpdatePricingHighlight(featured: array<bool>, selectedType: string) returns (ok: bool)
    modifies featured
    ensures ok <==> !(selectedType == "single" && featured.Length < 1) &&
                    !(selectedType == "album" && featured.Length < 2)
    ensures forall k :: 0 <= k < featured.Length ==>
      featured[k] == (ok && ((k == 0 && selectedType == "single") || (k == 1 && selectedType == "album")))
  {
    for k := 0 to featured.Length
      invariant forall m :: 0 <= m < k ==> !featured[m]
    {
      featured[k] := false;
    }
    ok := true;
    if selectedType == "single" {
      if featured.Length < 1 { return false; }
      featured[0] := true;
    } else if selectedType == "album" {
      if featured.Length < 2 { return false; }
      featured[1] := true;
    }
  }
}
