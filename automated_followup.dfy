// The follow-up panel of src/components/tour/automated-followup.tsx: the
// list of attached photos (appended to by a file selection, shortened by a
// remove button) and the guarded call to the recap generator, with its
// loading flag and result.

module AutomatedFollowup {
  import opened Wrappers
  import opened Text
  import opened Seqs
  import opened Types

  /** How reading one selected file as a data URI ended. */
  datatype FileRead = Read(dataUri: string) | ReadFailed

  /** The generator's input record. */
  datatype RecapRequest = RecapRequest(
    customerName: string,
    customerPreferences: string,
    notes: string,
    photosDataUris: seq<string>,
    availableHomes: string)

  datatype RecapOutput = RecapOutput(recap: string)

  const AvailableHomes := "The Aspen, The Birch, The Cedar"
  const FallbackCustomerName := "Valued Customer"

  /** `visit.visitor.name || 'Valued Customer'` */
  function CustomerName(name: Option<string>): (r: string)
    ensures r != ""
    ensures name.Some? && name.value != "" ==> r == name.value
    ensures name.None? || name.value == "" ==> r == FallbackCustomerName
  {
    if name.Some? && name.value != "" then name.value else FallbackCustomerName
  }

  /** `Promise.all` over the reads: every data URI in file order, or None as
      soon as one read fails. */
  method ReadAll(files: seq<FileRead>) returns (dataUris: Option<seq<string>>)
    ensures dataUris.Some? <==> forall i :: 0 <= i < |files| ==> files[i].Read?
    ensures dataUris.Some? ==> |dataUris.value| == |files|
    ensures dataUris.Some? ==> forall i :: 0 <= i < |files| ==> dataUris.value[i] == files[i].dataUri
  {
    var uris: seq<string> := [];
    var i := 0;
    while i < |files|
      invariant 0 <= i <= |files|
      invariant |uris| == i
      invariant forall k :: 0 <= k < i ==> files[k].Read? && uris[k] == files[k].dataUri
    {
      if files[i].ReadFailed? {
        return None;
      }
      uris := uris + [files[i].dataUri];
      i := i + 1;
    }
    dataUris := Some(uris);
  }

  class Panel {
    /** The visitor the panel was opened for. */
    const visitor: Visitor
    var notes: string
    var preferences: string
    var photos: seq<string>
    /** The generated recap; None is null. */
    var recap: Option<RecapOutput>
    var isLoading: bool
    var toasts: seq<Toast>
    /** Every request sent to the recap generator. */
    var requests: seq<RecapRequest>

    constructor (visitor: Visitor)
      ensures this.visitor == visitor
      ensures notes == "" && preferences == "" && photos == []
      ensures recap.None? && !isLoading && toasts == [] && requests == []
    {
      this.visitor := visitor;
      notes, preferences, photos := "", "", [];
      recap, isLoading, toasts, requests := None, false, [], [];
    }

    /** `handleFileChange`: with a selection, append all of its data URIs
        after the photos already attached, or none of them when any read
        fails; no selection changes nothing. */
    method HandleFileChange(files: Option<seq<FileRead>>)
      modifies this
      ensures notes == old(notes) && preferences == old(preferences)
      ensures recap == old(recap) && isLoading == old(isLoading) && requests == old(requests)
      ensures files.None? ==> photos == old(photos) && toasts == old(toasts)
      ensures files.Some? && (forall i :: 0 <= i < |files.value| ==> files.value[i].Read?) ==>
        |photos| == |old(photos)| + |files.value| &&
        photos[..|old(photos)|] == old(photos) &&
        (forall i :: 0 <= i < |files.value| ==> photos[|old(photos)| + i] == files.value[i].dataUri) &&
        toasts == old(toasts) + [Toast(ShowNat(|files.value|) + " photo(s) attached.", "", false)]
      ensures files.Some? && (exists i :: 0 <= i < |files.value| && files.value[i].ReadFailed?) ==>
        photos == old(photos) &&
        toasts == old(toasts) + [Toast("Error attaching photos", "There was a problem reading the selected files.", true)]
    {
      if files.Some? {
        var dataUris := ReadAll(files.value);
        match dataUris {
          case Some(uris) =>
            photos := photos + uris;
            toasts := toasts + [Toast(ShowNat(|files.value|) + " photo(s) attached.", "", false)];
          case None =>
            toasts := toasts + [Toast("Error attaching photos", "There was a problem reading the selected files.", true)];
        }
      }
    }

    /** `removePhoto`: keep every photo whose position is not `index`. */
    method RemovePhoto(index: int)
      modifies this
      ensures photos == DropIndex(old(photos), index)
      ensures 0 <= index < |old(photos)| ==> photos == old(photos)[..index] + old(photos)[index + 1..]
      ensures !(0 <= index < |old(photos)|) ==> photos == old(photos)
      ensures notes == old(notes) && preferences == old(preferences) && recap == old(recap)
      ensures isLoading == old(isLoading) && toasts == old(toasts) && requests == old(requests)
    {
      if 0 <= index < |photos| {
        DropIndexInRange(photos, index);
      } else {
        DropIndexAbove(photos, index);
      }
      photos := DropIndex(photos, index);
    }

    /** `handleGenerate`: with no notes, no preferences and no photos, only a
        toast; otherwise one request to the generator, whose result (or null
        when it fails) becomes the recap, and loading ends. */
    method HandleGenerate(outcome: Option<RecapOutput>)
      modifies this
      ensures notes == old(notes) && preferences == old(preferences) && photos == old(photos)
      ensures old(notes) == "" && old(preferences) == "" && old(photos) == [] ==>
        recap == old(recap) && isLoading == old(isLoading) && requests == old(requests) &&
        toasts == old(toasts) + [Toast("Missing Information", "Please enter some preferences, notes or attach photos to generate a recap.", true)]
      ensures !(old(notes) == "" && old(preferences) == "" && old(photos) == []) ==>
        requests == old(requests) + [RecapRequest(CustomerName(visitor.name), preferences, notes, photos, AvailableHomes)] &&
        recap == outcome && !isLoading &&
        toasts == old(toasts) + [if outcome.Some? then Toast("Recap Generated", "AI-powered recap is ready for review.", false)
                                 else Toast("AI Error", "Could not generate recap. Please try again.", true)]
    {
      if notes == "" && preferences == "" && |photos| == 0 {
        toasts := toasts + [Toast("Missing Information", "Please enter some preferences, notes or attach photos to generate a recap.", true)];
        return;
      }
      isLoading := true;
      recap := None;
      requests := requests + [RecapRequest(CustomerName(visitor.name), preferences, notes, photos, AvailableHomes)];
      match outcome {
        case Some(result) =>
          recap := Some(result);
          toasts := toasts + [Toast("Recap Generated", "AI-powered recap is ready for review.", false)];
        case None =>
          toasts := toasts + [Toast("AI Error", "Could not generate recap. Please try again.", true)];
      }
      isLoading := false;
    }
  }
}
