/** The record shapes shared by the components (types.ts). */
module Types {
  import opened Wrappers

  /** The two display languages. */
  datatype Language = En | Bn

  /** The author of a chat message; the assistant is called `'model'`. */
  datatype Role = User | Model

  /** A supporting web source shown under an assistant reply. */
  datatype Link = Link(title: string, uri: string)

  /** A chat message; its creation time is not modelled. */
  datatype ChatMessage = ChatMessage(role: Role, text: string, groundingUrls: Option<seq<Link>>)

  datatype ServiceCategory = ServiceCategory(id: string, title: string, titleBn: string, icon: string, color: string)

  /** How a provider card offers contact. */
  datatype ServiceType = LinkType | PhoneType | InfoType

  datatype ServiceItem = ServiceItem(
    id: string,
    categoryId: string,
    name: string,
    nameBn: string,
    description: string,
    descriptionBn: string,
    link: Option<string>,
    phone: Option<string>,
    kind: ServiceType)

  /** The four booking states the type admits. */
  datatype BookingStatus = Completed | Pending | Scheduled | Cancelled

  datatype Booking = Booking(
    id: string,
    serviceName: string,
    serviceNameBn: string,
    providerName: string,
    providerNameBn: string,
    date: string,
    status: BookingStatus,
    statusBn: string,
    price: string)

  /**
   * The Bengali label of each status. The type declares the English and the
   * Bengali statuses as two separate unions; the pairing follows their order.
   */
  function StatusLabelBn(s: BookingStatus): string {
    match s
    case Completed => "সম্পন্ন"
    case Pending => "অপেক্ষমান"
    case Scheduled => "নির্ধারিত"
    case Cancelled => "বাতিল"
  }
}
