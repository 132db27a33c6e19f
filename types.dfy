/** Shared data model of the admin console: the records the service layer
    exchanges with the backend and the small wrappers the rest of the model
    uses. */
module Types {

  /** A value that may be absent (`T | undefined` / `T | null`). */
  datatype Option<+T> = None | Some(value: T) {
    function GetOr(default: T): T {
      match this
      case Some(v) => v
      case None => default
    }
  }

  /** The envelope every backend endpoint answers with. */
  datatype ApiResponse<T> = ApiResponse(success: bool, code: int, message: string, data: T)

  /** A console user as the backend lists it. */
  datatype User = User(
    id: int,
    email: string,
    isAdmin: bool,
    isActive: bool,
    sdkKey: string,
    secretKey: string,
    createdById: int,
    createdAt: string)

  /** Membership level of a user in a knowledge base. */
  datatype PermissionType = Owner | Admin | Editor | Viewer

  /** One member row of a knowledge base. */
  datatype KnowledgeBaseUser = KnowledgeBaseUser(
    userId: int,
    email: string,
    permission: PermissionType,
    createdAt: string)

  /** A knowledge base with its owner and members. */
  datatype KnowledgeBaseDetail = KnowledgeBaseDetail(
    id: int,
    name: string,
    description: Option<string>,
    ownerId: int,
    ownerEmail: string,
    users: seq<KnowledgeBaseUser>)

  /** A document of a knowledge base. */
  datatype Document = Document(id: int, title: string, content: string)

  /** Paging block of a list response. */
  datatype PaginationInfo = PaginationInfo(total: int, page: int, pageSize: int)

  /** A transient toast notice; every toast of the core is either plain or
      `variant: 'destructive'`. */
  datatype Toast = Toast(title: string, description: Option<string>, destructive: bool)
}
