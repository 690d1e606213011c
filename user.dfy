/**
 * The authenticated identity the API returns on login and the client keeps
 * in memory and in durable storage (the `User` interface).
 */
module UserRecord {

  /** Field names follow the API's JSON keys; `perfil_id` is `perfilId` here. */
  datatype User = User(
    id: int,
    personId: int,
    nome: string,
    email: string,
    usuario: string,
    nivel: string,
    perfilId: int,
    administrador: bool,
    desenvolvedor: bool,
    integrador: bool,
    ativo: bool)
}
