/**
 * The resource uploader: a list of titled files waiting to be uploaded for
 * AI training, the form that adds to it, removal by id, and the submit
 * that uploads the whole list. The upload outcome is a parameter.
 */
module ResourceUploader {
  import opened Wrappers
  import Seqs
  import opened Text
  import opened CourseCreation

  datatype Resource = Resource(id: string, kind: MaterialType, title: string, description: string, file: Option<FileRef>)

  /** Why `handleAddResource` added nothing, or that it added the resource. */
  datatype AddOutcome = MissingTitle | MissingFile | Added

  /** How `handleSubmit` ended. */
  datatype SubmitOutcome = NoResources | Uploaded | UploadFailed

  /** A listed resource has a non-empty title and a file: the add handler lets no other through. */
  predicate ResourceOk(r: Resource) {
    r.title != "" && r.file.Some?
  }

  /**
   * The guards of `handleAddResource`: a blank title is reported first,
   * then a missing file.
   */
  function AddCheck(title: string, file: Option<FileRef>): (o: AddOutcome)
    ensures o == MissingTitle <==> IsBlank(title)
    ensures o == MissingFile <==> !IsBlank(title) && file.None?
    ensures o == Added <==> !IsBlank(title) && file.Some?
  {
    if Trim(title) == "" then MissingTitle
    else if file.None? then MissingFile
    else Added
  }

  /**
   * The resource `handleAddResource` appends: its id is `Date.now()` as
   * text, its title and description are trimmed.
   */
  function NewResource(now: nat, kind: MaterialType, title: string, description: string, file: FileRef): (r: Resource)
    requires !IsBlank(title)
    ensures ResourceOk(r) && r.id == NatToString(now) && r.kind == kind && r.file == Some(file)
    ensures r.title == Trim(title) && r.description == Trim(description)
  {
    Resource(NatToString(now), kind, Trim(title), Trim(description), Some(file))
  }

  /** The filter callback of `handleRemoveResource`. */
  function OtherId(id: string): Resource -> bool {
    (res: Resource) => res.id != id
  }

  /** The resources left after removing an id: all others, in order. */
  function WithoutId(resources: seq<Resource>, id: string): (r: seq<Resource>)
    ensures forall k :: 0 <= k < |r| ==> r[k].id != id && r[k] in resources
    ensures forall k :: 0 <= k < |resources| && resources[k].id != id ==> resources[k] in r
  {
    Seqs.Filter(resources, OtherId(id))
  }

  /** Removal keeps the order of the remaining resources and removes nothing when no resource has the id. */
  lemma {:induction false} WithoutIdOrder(resources: seq<Resource>, id: string)
    ensures Seqs.IsSubsequence(WithoutId(resources, id), resources)
    ensures (forall k :: 0 <= k < |resources| ==> resources[k].id != id) ==> WithoutId(resources, id) == resources
  {
    Seqs.FilterIsSubsequence(resources, OtherId(id));
    if forall k :: 0 <= k < |resources| ==> resources[k].id != id {
      Seqs.FilterAll(resources, OtherId(id));
    }
  }

  class Uploader {
    var resources: seq<Resource>
    var resourceType: MaterialType
    var title: string
    var description: string
    var selectedFile: Option<FileRef>
    var isLoading: bool

    /** Every listed resource passed the add handler's checks. */
    predicate Valid()
      reads this
    {
      forall k :: 0 <= k < |resources| ==> ResourceOk(resources[k])
    }

    constructor()
      ensures resources == [] && resourceType == Transcript && title == "" && description == ""
      ensures selectedFile == None && !isLoading && Valid()
    {
      resources := [];
      resourceType := Transcript;
      title := "";
      description := "";
      selectedFile := None;
      isLoading := false;
    }

    /** Empties the title, the description and the file selection. */
    method ClearForm()
      modifies this
      ensures title == "" && description == "" && selectedFile == None
      ensures resources == old(resources) && resourceType == old(resourceType) && isLoading == old(isLoading)
    {
      title := "";
      description := "";
      selectedFile := None;
    }

    /** `handleFileChange`: a chosen file replaces the selection; cancelling the dialog keeps it. */
    method HandleFileChange(file: Option<FileRef>)
      modifies this
      ensures selectedFile == if file.Some? then file else old(selectedFile)
      ensures resources == old(resources) && title == old(title) && description == old(description)
      ensures resourceType == old(resourceType) && isLoading == old(isLoading)
    {
      if file.Some? {
        selectedFile := file;
      }
    }

    /**
     * `handleAddResource`, with `now` the value of `Date.now()`. A blank
     * title is reported before a missing file, and either leaves everything
     * unchanged; otherwise one resource with the trimmed title and
     * description is appended and the form is cleared.
     */
    method HandleAddResource(now: nat) returns (outcome: AddOutcome)
      requires Valid()
      modifies this
      ensures Valid()
      ensures outcome == AddCheck(old(title), old(selectedFile))
      ensures outcome != Added ==>
        resources == old(resources) && title == old(title) && description == old(description) &&
        selectedFile == old(selectedFile)
      ensures outcome == Added ==>
        && old(selectedFile).Some?
        && resources == old(resources) +
             [NewResource(now, old(resourceType), old(title), old(description), old(selectedFile).value)]
        && title == "" && description == "" && selectedFile == None
      ensures resourceType == old(resourceType) && isLoading == old(isLoading)
    {
      outcome := AddCheck(title, selectedFile);
      if outcome != Added {
        return;
      }
      var newResource := NewResource(now, resourceType, title, description, selectedFile.value);
      resources := resources + [newResource];
      ClearForm();
    }

    /** `handleRemoveResource(id)`: every resource with that id goes, the others stay in order. */
    method HandleRemoveResource(id: string)
      requires Valid()
      modifies this
      ensures Valid()
      ensures resources == WithoutId(old(resources), id)
      ensures title == old(title) && description == old(description) && selectedFile == old(selectedFile)
      ensures resourceType == old(resourceType) && isLoading == old(isLoading)
    {
      resources := WithoutId(resources, id);
    }

    /**
     * `handleSubmit`, with `uploadsOk` whether every upload succeeded. An
     * empty list uploads nothing and changes nothing; after a successful
     * upload the list and the form are cleared; after a failure the list
     * and form are kept. Loading is over in either case.
     */
    method HandleSubmit(uploadsOk: bool) returns (outcome: SubmitOutcome)
      requires Valid()
      modifies this
      ensures Valid()
      ensures outcome == NoResources <==> old(resources) == []
      ensures outcome == NoResources ==> isLoading == old(isLoading)
      ensures outcome != NoResources ==> !isLoading && (outcome == Uploaded <==> uploadsOk)
      ensures outcome != Uploaded ==>
        resources == old(resources) && title == old(title) && description == old(description) &&
        selectedFile == old(selectedFile)
      ensures outcome == Uploaded ==> resources == [] && title == "" && description == "" && selectedFile == None
      ensures resourceType == old(resourceType)
    {
      if |resources| == 0 {
        return NoResources;
      }
      isLoading := true;
      if uploadsOk {
        resources := [];
        ClearForm();
        outcome := Uploaded;
      } else {
        outcome := UploadFailed;
      }
      isLoading := false;
    }
  }
}
