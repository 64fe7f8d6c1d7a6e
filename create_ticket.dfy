/** The new-ticket form of client/src/pages/CreateTicket.jsx: a form
    object with title, room number and description, the chosen
    before-photo and its preview, and the submit handler that posts the
    form to the server's ticket table. */
module CreateTicketPage {
  import opened Common
  import opened ServerTickets
  import opened ServerDatabase

  /** The message banner: nothing, or the missing-title complaint. The
      server never refuses what the handler sends, so its error reply is
      not a case here. */
  datatype Notice = NoError | TitleRequired

  /** The three form fields. */
  const TITLE: string := "title"
  const ROOM_NUMBER: string := "room_number"
  const DESCRIPTION: string := "description"

  /** The multipart body of POST /api/tickets the handler builds. */
  datatype TicketForm = TicketForm(title: string, description: string, roomNumber: string,
                                   createdBy: int, imageBefore: Option<string>)

  /** The handler accepts a title exactly when it is not blank, and every
      title it accepts passes the server's presence check. */
  lemma AcceptedTitlePassesServer(title: string)
    requires Trim(title) != ""
    ensures title != ""
  {
  }

  class CreateTicketPage {
    const db: Database
    const userId: int
    var form: map<string, string>
    var imageFile: Option<string>
    var preview: Option<string>
    var error: Notice
    var leftPage: bool

    /** The three fields are always present. */
    ghost predicate Valid()
      reads this, db
    {
      db.Valid() && TITLE in form && ROOM_NUMBER in form && DESCRIPTION in form
    }

    /** The empty form. */
    constructor (server: Database, id: int)
      requires server.Valid()
      ensures Valid() && db == server && userId == id
      ensures form == map[TITLE := "", ROOM_NUMBER := "", DESCRIPTION := ""]
      ensures imageFile.None? && preview.None? && error == NoError && !leftPage
    {
      db := server;
      userId := id;
      form := map[TITLE := "", ROOM_NUMBER := "", DESCRIPTION := ""];
      imageFile := None;
      preview := None;
      error := NoError;
      leftPage := false;
    }

    /** `handleChange`: the named field takes the typed value; every other
        field keeps its value. */
    method HandleChange(name: string, value: string)
      requires Valid()
      modifies this`form
      ensures Valid()
      ensures name in form && form[name] == value
      ensures forall k :: k in old(form) && k != name ==> k in form && form[k] == old(form)[k]
      ensures forall k :: k in form ==> k in old(form) || k == name
    {
      form := form[name := value];
    }

    /** `handleFileChange` with a chosen file: the file and its preview. */
    method ChooseFile(file: string, previewUrl: string)
      modifies this`imageFile, this`preview
      ensures imageFile == Some(file) && preview == Some(previewUrl)
    {
      imageFile := Some(file);
      preview := Some(previewUrl);
    }

    /** `clearImage`: no file and no preview. */
    method ClearImage()
      modifies this`imageFile, this`preview
      ensures imageFile.None? && preview.None?
    {
      imageFile := None;
      preview := None;
    }

    /** The body the submit handler appends field by field. */
    method BuildPayload() returns (body: TicketForm)
      requires Valid()
      ensures body.title == form[TITLE] && body.description == form[DESCRIPTION]
      ensures body.roomNumber == form[ROOM_NUMBER] && body.createdBy == userId
      ensures body.imageBefore == imageFile
    {
      body := TicketForm(form[TITLE], form[DESCRIPTION], form[ROOM_NUMBER], userId, None);
      if imageFile.Some? {
        body := body.(imageBefore := imageFile);
      }
    }

    /** `handleSubmit`: a blank title is refused locally and nothing is
        sent; otherwise the form is posted, which always creates the
        ticket, and the page navigates away. */
    method HandleSubmit(now: int)
      requires Valid()
      modifies this, db
      ensures Valid() && db.users == old(db.users)
      ensures Blank(old(form)[TITLE]) ==>
        error == TitleRequired && db.tickets == old(db.tickets) && leftPage == old(leftPage)
      ensures !Blank(old(form)[TITLE]) ==>
        var id := old(db.nextTicketId);
        && id !in old(db.tickets)
        && db.tickets == old(db.tickets)[id := NewTicket(id, old(form)[TITLE], old(form)[DESCRIPTION],
                                                         old(form)[ROOM_NUMBER], userId, old(imageFile), now)]
        && leftPage
    {
      if Trim(form[TITLE]) == "" {
        error := TitleRequired;
        return;
      }
      error := NoError;
      var body := BuildPayload();
      var r := db.CreateTicket(body.title, body.description, body.roomNumber, Some(body.createdBy), body.imageBefore, now);
      assert r.Ok?;
      leftPage := true;
    }
  }
}
