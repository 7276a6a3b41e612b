/**
 * The session of the desktop application: which screen is raised, who is
 * logged in, which leaf image was chosen, and what the labels on the home
 * screen say. Widgets, dialogs and images are not modelled; a dialog shown
 * to the user is the `Notice` a method returns, and an exception escaping
 * a button callback is the `Raised` notice, with the state left as it was
 * when the exception was thrown.
 */
module App {
  import opened Wrappers
  import opened Text
  import opened Prediction
  import opened Accounts

  /** The three stacked frames; the raised one is the active screen. */
  datatype Frame = LoginFrame | SignupFrame | HomeFrame

  /** `user_data`: the stored record of the logged-in user plus its username. */
  datatype SessionUser = SessionUser(username: string, record: UserRecord)

  /** An exception that escapes a callback. */
  datatype Fault = PreviewFailed | PredictFailed(error: PredictError)

  /** What a callback shows besides the screen itself. */
  datatype Notice =
    | Quiet
    | ShowError(title: string, message: string)
    | ShowInfo(title: string, message: string)
    | Raised(fault: Fault)

  const LoginFailed := ShowError("Login Failed", "Invalid credentials.")
  const UsernameTaken := ShowError("Signup Error", "Username already exists.")
  const AccountCreated := ShowInfo("Success", "Account created! Please login.")
  const NoImage := ShowError("No Image", "Upload a leaf image first.")

  function WelcomeText(r: UserRecord): string
  {
    "Welcome, " + r.name + "!"
  }

  function PlantsText(r: UserRecord): string
  {
    "\U{1F331} Your Plants: " + Join(r.plants, ", ")
  }

  function PredictionText(disease: string): string
  {
    "\U{1F9A0} Prediction: " + disease
  }

  class PlantApp {
    /** `users.json`, shared with every later run of the program. */
    const file: UserFile
    /** `plant_disease.json`: class index, as a decimal string, to label. */
    const catalog: map<string, string>
    /** The loaded network. */
    const model: Classifier

    var userData: Option<SessionUser>
    var uploadedImagePath: Option<string>
    var frame: Frame
    /** The two entries of the login screen. */
    var loginUser: string
    var loginPass: string
    /** The texts of the welcome, plants and result labels of the home screen. */
    var welcomeText: string
    var plantsText: string
    var resultText: string

    /**
     * The home screen is only ever raised for a logged-in user; a chosen
     * image path is never empty; the logged-in user's record is the one the
     * file holds under that username (records are never changed or removed).
     */
    ghost predicate Valid()
      reads this, file
    {
      && (frame == HomeFrame ==> userData.Some?)
      && (uploadedImagePath.Some? ==> uploadedImagePath.value != "")
      && (userData.Some? ==>
            && userData.value.username in file.users
            && file.users[userData.value.username] == userData.value.record)
    }

    /**
     * Python's truth value of `uploaded_image_path`: neither None nor the
     * empty string. Under the invariant it is just "a path was recorded".
     */
    function ImageSelected(): (selected: bool)
      reads this, file
      ensures Valid() ==> (selected <==> uploadedImagePath.Some?)
      ensures selected ==> uploadedImagePath.Some?
    {
      uploadedImagePath.Some? && uploadedImagePath.value != ""
    }

    /** Startup: nobody logged in, no image, the login screen raised. */
    constructor (file: UserFile, catalog: map<string, string>, model: Classifier)
      ensures Valid()
      ensures this.file == file && this.catalog == catalog && this.model == model
      ensures userData == None && uploadedImagePath == None && frame == LoginFrame
      ensures loginUser == "" && loginPass == ""
      ensures welcomeText == "" && plantsText == "" && resultText == ""
    {
      this.file := file;
      this.catalog := catalog;
      this.model := model;
      userData := None;
      uploadedImagePath := None;
      loginUser, loginPass := "", "";
      welcomeText, plantsText, resultText := "", "", "";
      frame := LoginFrame;
    }

    /** Typing into the two entries of the login screen. */
    method EnterCredentials(username: string, password: string)
      requires Valid()
      modifies this`loginUser, this`loginPass
      ensures Valid()
      ensures loginUser == username && loginPass == password
    {
      loginUser, loginPass := username, password;
    }

    /** The "Sign up" link of the login screen. */
    method SignupLink()
      requires Valid()
      modifies this`frame
      ensures Valid() && frame == SignupFrame
    {
      frame := SignupFrame;
    }

    /** The "Login" link of the signup screen. */
    method LoginLink()
      requires Valid()
      modifies this`frame
      ensures Valid() && frame == LoginFrame
    {
      frame := LoginFrame;
    }

    /**
     * Logs in when the typed username is a key of the file and the stored
     * password equals the typed one; otherwise reports the failure and
     * changes nothing.
     */
    method Login() returns (notice: Notice)
      requires Valid()
      modifies this`userData, this`frame, this`welcomeText, this`plantsText
      ensures Valid()
      ensures var ok := loginUser in file.users && file.users[loginUser].password == loginPass;
        && (ok ==>
              && userData == Some(SessionUser(loginUser, file.users[loginUser]))
              && frame == HomeFrame
              && welcomeText == WelcomeText(file.users[loginUser])
              && plantsText == PlantsText(file.users[loginUser])
              && notice == Quiet)
        && (!ok ==>
              && userData == old(userData) && frame == old(frame)
              && welcomeText == old(welcomeText) && plantsText == old(plantsText)
              && notice == LoginFailed)
    {
      var users := file.Load();
      var username, password := loginUser, loginPass;
      if username in users && users[username].password == password {
        userData := Some(SessionUser(username, users[username]));
        UpdateHomeScreen();
        frame := HomeFrame;
        notice := Quiet;
      } else {
        notice := LoginFailed;
      }
    }

    /**
     * Creates an account unless the username is already a key of the file.
     * The plants entry is split on commas. The user is not logged in: the
     * login screen is raised instead.
     */
    method Signup(name: string, username: string, email: string, password: string, plants: string)
      returns (notice: Notice)
      requires Valid()
      modifies this`frame, file
      ensures Valid()
      ensures userData == old(userData)
      ensures username in old(file.users) ==>
        && file.users == old(file.users)
        && frame == old(frame)
        && notice == UsernameTaken
      ensures username !in old(file.users) ==>
        && file.users == old(file.users)[username := UserRecord(name, email, password, Split(plants, ','))]
        && frame == LoginFrame
        && notice == AccountCreated
    {
      var users := file.Load();
      if username in users {
        notice := UsernameTaken;
        return;
      }
      users := users[username := UserRecord(name, email, password, Split(plants, ','))];
      file.Save(users);
      notice := AccountCreated;
      frame := LoginFrame;
    }

    /** Fills the welcome and plants labels from the logged-in user's record. */
    method UpdateHomeScreen()
      requires userData.Some?
      modifies this`welcomeText, this`plantsText
      ensures welcomeText == WelcomeText(userData.value.record)
      ensures plantsText == PlantsText(userData.value.record)
    {
      var r := userData.value.record;
      welcomeText := WelcomeText(r);
      plantsText := PlantsText(r);
    }

    /**
     * Forgets the user, empties the login entries and raises the login
     * screen. The chosen image and the home-screen labels are kept.
     */
    method Logout()
      requires Valid()
      modifies this`userData, this`loginUser, this`loginPass, this`frame
      ensures Valid()
      ensures userData == None && loginUser == "" && loginPass == "" && frame == LoginFrame
      ensures uploadedImagePath == old(uploadedImagePath) && resultText == old(resultText)
    {
      userData := None;
      loginUser, loginPass := "", "";
      frame := LoginFrame;
    }

    /**
     * The file dialog returned `chosen` ("" when cancelled). A chosen path is
     * recorded first; then the preview is opened, and only if that succeeds
     * is the previous result cleared.
     */
    method UploadImage(chosen: string, previewOpens: bool) returns (notice: Notice)
      requires Valid()
      modifies this`uploadedImagePath, this`resultText
      ensures Valid()
      ensures chosen == "" ==>
        uploadedImagePath == old(uploadedImagePath) && resultText == old(resultText) && notice == Quiet
      ensures chosen != "" ==> uploadedImagePath == Some(chosen)
      ensures chosen != "" && previewOpens ==> resultText == "" && notice == Quiet
      ensures chosen != "" && !previewOpens ==>
        resultText == old(resultText) && notice == Raised(PreviewFailed)
    {
      notice := Quiet;
      if chosen != "" {
        uploadedImagePath := Some(chosen);
        if !previewOpens {
          notice := Raised(PreviewFailed);
          return;
        }
        resultText := "";
      }
    }

    /**
     * Refuses when no image is selected (whoever is logged in, or nobody);
     * otherwise classifies the image and shows the label, or lets the
     * failure escape with the result label untouched.
     */
    method PredictDisease() returns (notice: Notice)
      requires Valid()
      modifies this`resultText
      ensures Valid()
      ensures !ImageSelected() ==> notice == NoImage && resultText == old(resultText)
      ensures ImageSelected() ==>
        match Classify(model, catalog, uploadedImagePath.value)
        case Success(disease) => resultText == PredictionText(disease) && notice == Quiet
        case Failure(e) => resultText == old(resultText) && notice == Raised(PredictFailed(e))
    {
      if !ImageSelected() {
        notice := NoImage;
        return;
      }
      match Classify(model, catalog, uploadedImagePath.value)
      case Success(disease) =>
        resultText := PredictionText(disease);
        notice := Quiet;
      case Failure(e) =>
        notice := Raised(PredictFailed(e));
    }
  }

  /**
   * Accounts on a first run: sign up growing two crops (such as "tomato"
   * and "basil", typed as "tomato,basil"), sign up again under the same
   * name, log in with a wrong and then with the right password.
   */
  method AccountSession(model: Classifier, crop1: string, crop2: string)
    requires ',' !in crop1 && ',' !in crop2
  {
    var plants := crop1 + "," + crop2;
    SplitJoin([crop1, crop2], ',');
    assert Join([crop1, crop2], [',']) == plants;
    var file := new UserFile(None);
    var app := new PlantApp(file, map[], model);
    app.SignupLink();
    var n := app.Signup("Alice", "alice", "a@x.com", "pw1", plants);
    assert n == AccountCreated && app.frame == LoginFrame && app.userData == None;
    n := app.Signup("Other", "alice", "o@x.com", "pw2", "");
    assert n == UsernameTaken && file.users["alice"].password == "pw1";

    app.EnterCredentials("alice", "wrong");
    n := app.Login();
    assert n == LoginFailed && app.frame == LoginFrame;

    app.EnterCredentials("alice", "pw1");
    n := app.Login();
    assert app.frame == HomeFrame && app.userData.value.username == "alice";
    assert app.userData.value.record.plants == [crop1, crop2];
  }

  /**
   * Prediction for a logged-in user: refused before an image is chosen,
   * the catalog's label afterwards; logging out keeps the image.
   */
  method PredictSession(app: PlantApp)
    requires app.Valid() && app.frame == HomeFrame && app.uploadedImagePath == None
    requires app.catalog == map["3" := "Tomato_Early_Blight"]
    requires app.model("leaf.jpg") == Some([0.1, 0.05, 0.2, 0.6, 0.05])
    modifies app
  {
    var n := app.PredictDisease();
    assert n == NoImage;

    n := app.UploadImage("leaf.jpg", true);
    ResolveExample();
    n := app.PredictDisease();
    assert app.resultText == PredictionText("Tomato_Early_Blight");

    app.Logout();
    assert app.frame == LoginFrame && app.uploadedImagePath == Some("leaf.jpg");
  }
}
