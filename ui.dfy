/** What a component hands back to its parent or to the router. */
module Ui {

  datatype Callback =
    | OnClose
    | OnPostUpdated
    | OnPostCreated
    | Navigate(path: string)
}
