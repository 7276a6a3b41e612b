# KisanKlick plant-disease desktop app: session, accounts and label resolution

KisanKlick is a Tkinter desktop application. A grower signs up and logs in
against a local `users.json` file. On the home screen they choose a leaf
photograph and get a disease label. The label comes from a pre-trained Keras
network and the `plant_disease.json` catalog, which maps class indices
(written as decimal strings) to labels.

This project models the part of `PlantApp` that carries logic:

- `Accounts` holds `UserRecord` and `UserFile`. `UserFile` stands for `users.json`: a class holding the decoded
  mapping, read whole by `Load` and replaced whole by `Save`.
- `App` holds `PlantApp`, a class whose fields are the session state: the raised frame (login, signup or home),
  `user_data`, `uploaded_image_path`, the two login entries and the texts of the home screen's labels. Its methods
  are the button callbacks. A message box becomes the `Notice` a callback returns. An exception that escapes a
  callback becomes `Raised`, and the state stays as it was when the exception was thrown. The object invariant
  `Valid` says three things. The home screen is raised only for a logged-in user. A chosen image path is never
  empty. The logged-in user's record is the one the file holds under that username.
- `Text` holds the pure string steps. `Split` is `str.split` on a one-character separator (the plants entry).
  `Join` is `str.join`. `Decimal` is `str` of a non-negative integer. `DecimalValue` is its inverse.
- `Prediction` holds the pure last step of prediction. `ArgMax` is numpy's argmax, which returns the first index
  of a maximal entry. `Resolve` looks that index up in the catalog under its decimal string. The network is a
  parameter: a total function from an image path to an output vector, or to nothing when the image cannot be
  loaded.

Behaviour of app.py that the model keeps as written:

- The password is stored and compared as typed.
- `logout` does not clear the chosen image. A later login, even by another user, can predict on it at once.
- A catalog without a label for the predicted index fails at prediction time (a `KeyError` escaping the
  callback). It is not caught at startup.
- An empty username is accepted by signup.
- `upload_image` records the new path before it opens the preview. It clears the previous result only after the
  preview opened.

## Model

| member | source | states |
|---|---|---|
| Text.Split | app.py:144 | the plants list has one more element than the input has commas, and no element contains a comma |
| Text.JoinSplit | app.py:144 | joining the split plants with "," gives back the typed entry exactly |
| Text.SplitJoin | app.py:144 | a non-empty list of comma-free names, joined with ",", splits back into the same list |
| Text.Join | app.py:153 | `sep.join`: nothing for no pieces; otherwise the first piece comes first and the length is the pieces' total plus one separator per neighbouring pair (JoinSplit and SplitJoin tie it to the split) |
| Text.Decimal | app.py:182 | `str` of an index is a non-empty string of decimal digits that starts with '0' exactly when the index is 0 (no leading zeros) |
| Text.DecimalRoundTrip | app.py:182 | reading the decimal string of an index back gives the index |
| Text.DecimalInjective | app.py:182-183 | distinct class indices are looked up under distinct catalog keys |
| Prediction.FirstMax | app.py:182 | the index lies in the vector, no entry exceeds its entry, and every earlier entry is strictly smaller (the first maximum) |
| Prediction.ArgMax | app.py:182 | argmax fails exactly on the empty vector; otherwise it returns the first maximal index |
| Prediction.Resolve | app.py:182-183 | an empty output fails as such; otherwise, for the first maximal index k, the label is the catalog's entry under str(k) when that key exists, and the failure names the missing key str(k) when it does not |
| Prediction.ResolveTotal | app.py:182-183 | when the catalog has a label for every index of the output vector, resolution succeeds and yields one of the catalog's labels |
| Prediction.Classify | app.py:178-183 | the outcome is fixed by the network's output for the path: unreadable exactly when there is none, an empty-output failure for an empty vector, and otherwise, for the first maximal index k, the catalog's label under str(k) or a failure naming the missing key str(k) |
| Prediction.ResolveExample | app.py:181-183 | an output whose maximum sits at index 3, with catalog {"3": "Tomato_Early_Blight"}, resolves to "Tomato_Early_Blight" |
| Accounts.UserFile.constructor | app.py:14-17 | an existing users file keeps its contents; a missing one starts as the empty mapping |
| Accounts.UserFile.Load | app.py:19-21 | loading returns the mapping last saved |
| Accounts.UserFile.Save | app.py:23-25 | saving replaces the whole stored mapping |
| App.PlantApp.ImageSelected | app.py:174 | the guard is Python's truth value of the path: true only for a recorded path, and under the invariant (recorded paths are never empty) exactly when a path is recorded |
| App.PlantApp.constructor | app.py:34-39 | the app starts with nobody logged in, no image, empty entries and labels, and the login screen raised |
| App.PlantApp.EnterCredentials | app.py:61-68 | typing into the login entries sets exactly those two fields |
| App.PlantApp.SignupLink | app.py:71 | the link on the login screen raises the signup screen and keeps the invariant |
| App.PlantApp.LoginLink | app.py:99 | the link on the signup screen raises the login screen and keeps the invariant |
| App.PlantApp.Login | app.py:119-130 | login succeeds iff the typed username is a key of the file and its stored password equals the typed one; on success user_data is that record with the username, the home screen is raised and its labels are filled; on failure user_data, screen, labels and the file are unchanged and "Invalid credentials." is shown |
| App.PlantApp.Signup | app.py:132-149 | an existing username leaves the file and the screen unchanged and shows the duplicate error; a fresh one adds exactly that key with the given name, email, password and split plants, leaves every other entry unchanged and raises the login screen; nobody is logged in by it |
| App.PlantApp.UpdateHomeScreen | app.py:151-155 | the welcome label shows the user's name and the plants label the plants joined with ", " |
| App.PlantApp.Logout | app.py:157-161 | nobody is logged in, both login entries are empty and the login screen is raised; the chosen image and the result label are kept |
| App.PlantApp.UploadImage | app.py:163-171 | a cancelled dialog changes nothing; a chosen path is recorded; the result label is cleared only when the preview opens, otherwise the failure escapes |
| App.PlantApp.PredictDisease | app.py:173-185 | without a selected image it shows "Upload a leaf image first." and leaves the result unchanged, whoever is logged in; otherwise the result label shows the pipeline's label, or stays unchanged while the failure escapes |

## Left out

- Widget construction, fonts, colours and frame placement (app.py:41-117) are left out. Only the raised frame and the label texts are kept.
- Message boxes and the file dialog are left out. A dialog is the returned `Notice`, and the dialog's answer is a parameter of `UploadImage`.
- Loading the Keras model, `load_img` with its 160×160 resize, `img_to_array`, `expand_dims` and `model.predict` are foreign numeric calls. They are the `Classifier` parameter. The batch dimension is dropped: with one image, numpy's argmax over the flattened `(1, n)` output is the index within the single row.
- Floating point is modelled by `real`, so NaN entries, which numpy's argmax treats as maximal, are not modelled.
- The PIL preview (open, 250×250 resize, `ImageTk`) is display only. Whether the file opens is the `previewOpens` parameter.
- JSON encoding and decoding of both files is left out. `users.json` is the mapping held by `UserFile`. `plant_disease.json` is the `catalog` map.
- A `users.json` edited by hand to drop the "plants" field is not modelled. Every record here has a plants list, so the `.get("plants", [])` default of update_home_screen never applies.
- Concurrent runs of the program sharing `users.json` are not modelled. The invariant that a logged-in user's record is still in the file assumes this process is the only writer.
- The signup entries are parameters of `Signup`, not fields, because nothing else reads or clears them.
