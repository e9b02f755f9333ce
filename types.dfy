/** Entities shared by the live-performance view, the view router and the login form. */
module Types {

  datatype Option<+T> = None | Some(value: T)

  /** A repertoire document (Dashboard.jsx): its id, name and optional description. */
  datatype Repertoire = Repertoire(id: string, nome: string, descricao: string)

  /** A song document of a repertoire; `ordem` is its position in the traversal sequence. */
  datatype Musica = Musica(
    id: string,
    titulo: string,
    artista: string,
    tonalidade: string,
    acordes: string,
    observacoes: string,
    ordem: int)

  /** The signed-in user as exposed by the authentication context. */
  datatype User = User(uid: string, email: string, displayName: string)
}
