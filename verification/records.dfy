/** The rows of the hosted database the application reads and writes, with the
    column names of its schema. Only the columns the modelled logic touches are
    kept; timestamps are opaque strings and money and weight are reals copied
    without arithmetic. */
module Records {
  import opened Wrappers

  /** A row of `pets`. */
  datatype Pet = Pet(
    id: string,
    userId: string,
    nome: string,
    especie: string,
    raca: Option<string>,
    idade: Option<int>,
    peso: Option<real>,
    sexo: Option<string>,
    cor: Option<string>,
    observacoes: Option<string>,
    foto: Option<string>,
    vacinacaoEmDia: bool,
    createdAt: string,
    updatedAt: string)

  /** The columns a new pet is inserted with, before the backend assigns
      `id` and the timestamps. */
  datatype NewPet = NewPet(
    nome: string,
    especie: string,
    raca: Option<string>,
    idade: Option<int>,
    peso: Option<real>,
    sexo: Option<string>,
    cor: Option<string>,
    observacoes: Option<string>,
    vacinacaoEmDia: bool)

  /** A row of `services`. `especies` is the JSON column `especies_atendidas`:
      absent (null) or a list of species names. */
  datatype Service = Service(
    id: string,
    establishmentId: string,
    nome: string,
    preco: real,
    duracao: int,
    categoria: string,
    especies: Option<seq<string>>,
    status: string)

  /** The JSON column `fotos`: null, some value that is not an array, or an array of URLs. */
  datatype Photos = NoPhotos | NotAnArray | PhotoList(urls: seq<string>)

  /** The JSON column `endereco`, of which the screens read `rua` and `bairro`. */
  datatype Address = Address(rua: Option<string>, bairro: Option<string>)

  /** A row of `establishments`. */
  datatype Establishment = Establishment(
    id: string,
    nome: string,
    fotos: Photos,
    endereco: Option<Address>,
    status: string)

  /** The row inserted into `appointments` when a booking is confirmed. */
  datatype Appointment = Appointment(
    userId: string,
    petId: string,
    serviceId: string,
    establishmentId: string,
    dataAgendamento: string,
    horarioInicio: string,
    horarioFim: string,
    precoFinal: real,
    status: string)

  /** The row inserted into `reviews`. */
  datatype Review = Review(
    userId: string,
    appointmentId: string,
    establishmentId: string,
    nota: int,
    comentario: Option<string>)

  /** A row of `profiles`, as far as the profile screen uses it. */
  datatype Profile = Profile(
    nome: Option<string>,
    telefone: Option<string>,
    cpf: Option<string>)
}
